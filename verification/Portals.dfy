/**
 IOPortal: a buffer that reads into blocks of its own. The blocks are taken from the thread-local chain
 and kept in a chain of the portal until they are full.
 */
module Portals {
  import opened Chunks
  import opened Blocks
  import opened RefLists
  import opened RefRuns
  import opened RefQueues
  import opened IOBufs
  import opened TlsBlocks
  import opened Growth

  const MAX_APPEND_IOVEC := 64

  // ---- The blocks of a portal ----

  function Links(tls: seq<BlockId>, chain: seq<BlockId>): multiset<BlockId> {
    multiset(tls) + multiset(chain)
  }

  ghost predicate Unfit(m: Mem, s: seq<BlockRef>, tls: seq<BlockId>, chain: seq<BlockId>) {
    !Ready(m, s, Links(tls, chain)) || !Roomy(m, chain) || !Single(Links(tls, chain))
  }

  /** Every block of the portal has room and is in no other place of either chain. */
  ghost predicate Fit(m: Mem, s: seq<BlockRef>, tls: seq<BlockId>, chain: seq<BlockId>) {
    !Unfit(m, s, tls, chain)
  }

  lemma FitIs(m: Mem, s: seq<BlockRef>, tls: seq<BlockId>, chain: seq<BlockId>)
    requires Fit(m, s, tls, chain)
    ensures Ready(m, s, Links(tls, chain)) && Roomy(m, chain) && Single(Links(tls, chain)) && TlsOk(m, multiset(tls))
    ensures TlsOk(m, Links(tls, chain))
  {
    ReadyIs(m, s, Links(tls, chain));
    CoversLess(m, multiset(tls), multiset(chain));
    EffectRefl(m, multiset(tls));
  }

  lemma ToFit(m: Mem, s: seq<BlockRef>, tls: seq<BlockId>, chain: seq<BlockId>)
    requires Ready(m, s, Links(tls, chain)) && Roomy(m, chain) && Single(Links(tls, chain))
    ensures Fit(m, s, tls, chain)
  {
  }

  lemma Apart(tls: seq<BlockId>, chain: seq<BlockId>, i: nat)
    requires Single(Links(tls, chain)) && i < |chain|
    ensures chain[i] !in tls && chain[i] !in chain[..i] && chain[i] !in chain[i + 1..]
  {
    var b, p, q := chain[i], chain[..i], chain[i + 1..];
    assert chain == p + [b] + q;
    assert multiset(chain) == multiset(p) + multiset{b} + multiset(q);
    var c := Links(tls, chain);
    assert c[b] <= 1;
    assert b in p ==> multiset(p)[b] > 0;
    assert b in q ==> multiset(q)[b] > 0;
    assert b in tls ==> multiset(tls)[b] > 0;
  }

  /** A step of the thread-local chain leaves the blocks of the portal alone. */
  lemma RoomyOutside(m: Mem, tls: seq<BlockId>, chain: seq<BlockId>, m': Mem)
    requires Roomy(m, chain) && Single(Links(tls, chain)) && Outside(m, tls, m')
    ensures Roomy(m', chain)
  {
    forall i | 0 <= i < |chain|
      ensures chain[i] in m' && !Full(m'[chain[i]])
    {
      Apart(tls, chain, i);
      var b := chain[i];
      assert b in m && b !in tls;
    }
  }

  lemma TlsFrame(m: Mem, c: multiset<BlockId>, m': Mem, c': multiset<BlockId>, d: multiset<BlockId>)
    requires TlsStep(m, c, m', c') && Covers(m, c + d)
    ensures TlsStep(m, c + d, m', c' + d)
  {
    EffectFrame(m, c, m', c', d);
  }

  lemma ReadyCovers(m: Mem, s: seq<BlockRef>, c: multiset<BlockId>)
    requires Ready(m, s, c)
    ensures Covers(m, c)
  {
    CoversLess(m, Claims(s), c);
  }

  /** A block that was acquired is not yet in the chain. */
  lemma AcquiredSingle(tls: seq<BlockId>, chain: seq<BlockId>, m': Mem, tls': seq<BlockId>, b: BlockId)
    requires Single(Links(tls, chain)) && multiset(tls') <= multiset(tls) && b in m'
    requires m'[b].nshared == 1 || multiset(tls') + multiset{b} <= multiset(tls)
    requires Covers(m', Links(tls', chain + [b]))
    ensures Single(Links(tls', chain + [b]))
  {
    var c := Links(tls', chain + [b]);
    assert c == Links(tls', chain) + multiset{b};
    SingleLess(Links(tls', chain), Links(tls, chain));
    forall k: BlockId
      ensures c[k] <= 1
    {
      assert Links(tls', chain)[k] <= 1 && Links(tls, chain)[k] <= 1;
      if k == b && m'[b].nshared == 1 {
        assert c[b] <= Cnt(m', b);
      }
    }
  }

  lemma AcquiredFits(m: Mem, s: seq<BlockRef>, tls: seq<BlockId>, chain: seq<BlockId>, m': Mem, tls': seq<BlockId>,
    b: BlockId)
    requires Fit(m, s, tls, chain) && TlsStep(m, multiset(tls), m', multiset(tls') + multiset{b})
    requires Outside(m, tls, m') && multiset(tls') <= multiset(tls) && b in m' && !Full(m'[b])
    requires m'[b].nshared == 1 || multiset(tls') + multiset{b} <= multiset(tls)
    ensures Appended(m, s, Links(tls, chain), m', s, Links(tls', chain + [b]), []) && Fit(m', s, tls', chain + [b])
  {
    hide Fit, Ready, Roomy, Single, Appended, TlsStep, Outside, Covers;
    FitIs(m, s, tls, chain);
    ReadyCovers(m, s, Links(tls, chain));
    TlsFrame(m, multiset(tls), m', multiset(tls') + multiset{b}, multiset(chain));
    assert multiset(tls') + multiset{b} + multiset(chain) == Links(tls', chain + [b]);
    BesideStep(m, s, Links(tls, chain), m', Links(tls', chain + [b]));
    AppendedReady(m, s, Links(tls, chain), m', s, Links(tls', chain + [b]), []);
    ReadyCovers(m', s, Links(tls', chain + [b]));
    AcquiredSingle(tls, chain, m', tls', b);
    RoomyOutside(m, tls, chain, m');
    RoomyMore(m', chain, b);
    ToFit(m', s, tls', chain + [b]);
  }

  lemma RoomyMore(m: Mem, chain: seq<BlockId>, b: BlockId)
    requires Roomy(m, chain) && b in m && !Full(m[b])
    ensures Roomy(m, chain + [b])
  {
  }

  /** The same when there was no block to be had. */
  lemma NoneFits(m: Mem, s: seq<BlockRef>, tls: seq<BlockId>, chain: seq<BlockId>, m': Mem, tls': seq<BlockId>)
    requires Fit(m, s, tls, chain) && TlsStep(m, multiset(tls), m', multiset(tls'))
    requires Outside(m, tls, m') && multiset(tls') <= multiset(tls)
    ensures Appended(m, s, Links(tls, chain), m', s, Links(tls', chain), []) && Fit(m', s, tls', chain)
  {
    hide Fit, Ready, Roomy, Single, Appended, TlsStep, Outside, Covers;
    FitIs(m, s, tls, chain);
    ReadyCovers(m, s, Links(tls, chain));
    TlsFrame(m, multiset(tls), m', multiset(tls'), multiset(chain));
    BesideStep(m, s, Links(tls, chain), m', Links(tls', chain));
    AppendedReady(m, s, Links(tls, chain), m', s, Links(tls', chain), []);
    SingleLess(Links(tls', chain), Links(tls, chain));
    RoomyOutside(m, tls, chain, m');
    ToFit(m', s, tls', chain);
  }

  lemma HandedKeeps(m: Mem, t: seq<BlockId>, b: BlockId, data: seq<Byte>, m': Mem, t': seq<BlockId>, k: BlockId)
    requires Handed(m, t, b, data, m', t') && k in m && k !in t
    ensures k in m' && m'[k] == m[k] && k !in t' && (b != NULL ==> k != b)
  {
    hide DropHeads;
    DropHeadsSpares(m, t);
    var (m1, t1) := DropHeads(m, t);
    assert k !in multiset(t) && k !in multiset(t1);
  }

  /** Blocks of others are left alone when a block is acquired. */
  lemma HandedSpares(m: Mem, t: seq<BlockId>, chain: seq<BlockId>, b: BlockId, data: seq<Byte>, m': Mem,
    t': seq<BlockId>)
    requires Handed(m, t, b, data, m', t')
    ensures b != NULL ==> Spares(m, Links(t, chain), m', Links(t', chain + [b]))
    ensures b == NULL ==> Spares(m, Links(t, chain), m', Links(t', chain))
  {
    hide Handed;
    assert Links(t', chain + [b]) == Links(t', chain) + multiset{b};
    forall k | k in m && k !in Links(t, chain)
      ensures k in m' && m'[k] == m[k] && k !in Links(t', chain) && (b != NULL ==> k != b)
    {
      assert k !in multiset(t) && k !in multiset(chain);
      HandedKeeps(m, t, b, data, m', t', k);
    }
  }

  // ---- What has been read and is not yet handed out ----

  function Space(b: Block): nat {
    if b.size <= b.cap then b.cap - b.size else 0
  }

  function MinOf(a: nat, b: nat): nat {
    if a < b then a else b
  }

  /** The bytes `x` lie behind the sizes of the blocks from the `i`-th on. */
  ghost predicate Pending(m: Mem, chain: seq<BlockId>, i: nat, x: seq<Byte>)
    decreases |x|
  {
    x == [] ||
    (i < |chain| && chain[i] in m &&
     var b := m[chain[i]];
     var k := MinOf(|x|, Space(b));
     k > 0 && b.size + k <= |b.data| && b.data[b.size..b.size + k] == x[..k] && Pending(m, chain, i + 1, x[k..]))
  }

  lemma {:induction false} PendingSame(m: Mem, m': Mem, chain: seq<BlockId>, i: nat, x: seq<Byte>)
    requires Pending(m, chain, i, x)
    requires forall j :: i <= j < |chain| && chain[j] in m ==>
               chain[j] in m' && m'[chain[j]].size == m[chain[j]].size && m'[chain[j]].cap == m[chain[j]].cap
               && m'[chain[j]].data == m[chain[j]].data
    ensures Pending(m', chain, i, x)
    decreases |x|
  {
    if x != [] {
      var k := MinOf(|x|, Space(m[chain[i]]));
      PendingSame(m, m', chain, i + 1, x[k..]);
    }
  }

  lemma PendingCons(m: Mem, chain: seq<BlockId>, i: nat, y: seq<Byte>, rest: seq<Byte>)
    requires i < |chain| && chain[i] in m && Pending(m, chain, i + 1, rest)
    requires var b := m[chain[i]];
      && |b.data| == b.cap && 0 < |y| <= Space(b) && b.size < b.cap && b.data[b.size..b.size + |y|] == y
      && (rest != [] ==> |y| == Space(b))
    ensures Pending(m, chain, i, y + rest)
  {
    var x, b := y + rest, m[chain[i]];
    assert MinOf(|x|, Space(b)) == |y|;
    assert x[..|y|] == y && x[|y|..] == rest;
  }

  /** Only bytes behind the sizes of the blocks `t` differ. */
  ghost predicate Scribbled(m: Mem, t: seq<BlockId>, m': Mem) {
    forall b :: b in m ==>
      b in m' && m'[b].(data := m[b].data) == m[b] && |m'[b].data| == |m[b].data| && (b !in t ==> m'[b] == m[b])
  }

  lemma WriteScribbles(m: Mem, b: BlockId, y: seq<Byte>, t: seq<BlockId>)
    requires b in m && b in t && m[b].size + |y| <= |m[b].data|
    ensures Scribbled(m, t, Write(m, b, y))
    ensures var d := Write(m, b, y)[b].data; m[b].size + |y| <= |d| && d[m[b].size..m[b].size + |y|] == y
  {
  }

  lemma ScribbledTrans(m: Mem, m1: Mem, m2: Mem, chain: seq<BlockId>, i: nat, n: nat)
    requires i < n <= |chain| && Scribbled(m, chain[i..n], m1) && Scribbled(m1, chain[i + 1..n], m2)
    ensures Scribbled(m, chain[i..n], m2)
  {
    forall b | b !in chain[i..n]
      ensures b !in chain[i + 1..n]
    {
      assert chain[i..n] == [chain[i]] + chain[i + 1..n];
    }
  }

  lemma ScribbledSpares(m: Mem, tls: seq<BlockId>, chain: seq<BlockId>, n: nat, m': Mem)
    requires n <= |chain| && Scribbled(m, chain[0..n], m')
    ensures Spares(m, Links(tls, chain), m', Links(tls, chain))
  {
    forall b | b in m && b !in Links(tls, chain)
      ensures b !in chain[0..n]
    {
      assert b !in multiset(chain);
    }
  }

  lemma ScribbledRoomy(m: Mem, t: seq<BlockId>, m': Mem, chain: seq<BlockId>)
    requires Scribbled(m, t, m') && Roomy(m, chain)
    ensures Roomy(m', chain)
  {
    forall i | 0 <= i < |chain|
      ensures chain[i] in m' && !Full(m'[chain[i]])
    {
      var b := chain[i];
      assert b in m && m'[b].(data := m[b].data) == m[b];
    }
  }

  ghost predicate AllDistinct(chain: seq<BlockId>) {
    forall i, j :: 0 <= i < j < |chain| ==> chain[i] != chain[j]
  }

  lemma NotLater(chain: seq<BlockId>, i: nat, n: nat)
    requires AllDistinct(chain) && i < n <= |chain|
    ensures chain[i] in chain[i..n] && chain[i] !in chain[i + 1..n]
  {
    assert chain[i..n][0] == chain[i];
  }

  lemma BlockOf(m: Mem, chain: seq<BlockId>, i: nat)
    requires MemOk(m) && Roomy(m, chain) && i < |chain|
    ensures chain[i] in m && m[chain[i]].size < m[chain[i]].cap == |m[chain[i]].data|
    ensures Space(m[chain[i]]) == m[chain[i]].cap - m[chain[i]].size
  {
    var b := chain[i];
    assert b in m && BlockOk(m[b]);
  }

  /** Some of the `space` bytes in the blocks from the `i`-th on are filled, from the first on. */
  method FillSome(h: Heap, chain: seq<BlockId>, i: nat, n: nat, space: nat) returns (x: seq<Byte>)
    requires i <= n <= |chain| && AllDistinct(chain) && MemOk(h.m) && Roomy(h.m, chain)
    modifies h`m
    ensures |x| <= space && Pending(h.m, chain, i, x) && Scribbled(old(h.m), chain[i..n], h.m)
    ensures Effect(old(h.m), multiset{}, h.m, multiset{}) && MemOk(h.m) && Roomy(h.m, chain)
    decreases n - i
  {
    hide MemOk, Roomy, AllDistinct, Effect, Write;
    ghost var m0 := h.m;
    EffectRefl(m0, multiset{});
    if i == n || space == 0 {
      return [];
    }
    BlockOf(m0, chain, i);
    NotLater(chain, i, n);
    var b := chain[i];
    var room := MinOf(Space(h.m[b]), space);
    var y: seq<Byte> := *;
    if |y| > room {
      y := y[..room];
    }
    WriteScribbles(m0, b, y, chain[i..n]);
    WriteEffect(m0, b, y);
    h.m := Write(h.m, b, y);
    ghost var m1 := h.m;
    EffectOk(m0, m1);
    ScribbledRoomy(m0, chain[i..n], m1, chain);
    var rest: seq<Byte> := [];
    if |y| == room {
      rest := FillSome(h, chain, i + 1, n, space - room);
      ScribbledTrans(m0, m1, h.m, chain, i, n);
      EffectTrans(m0, multiset{}, m1, multiset{}, h.m, multiset{});
    }
    x := y + rest;
    if y != [] {
      PendingCons(h.m, chain, i, y, rest);
    }
  }

  /** IReader. */
  class Reader {
    ghost var calls: nat        // how often it was asked
    ghost var pieces: nat       // how many iovecs it was offered last,
    ghost var room: nat         // and how many bytes in them
    ghost var last: int         // its last answer
    ghost var given: seq<Byte>  // all it gave so far

    constructor ()
      ensures calls == 0 && pieces == 0 && room == 0 && last == 0 && given == []
    {
      calls, pieces, room, last, given := 0, 0, 0, 0, [];
    }

    /** It was asked once, for `max` bytes or in 64 pieces, answered `nr` and gave `x`. */
    twostate predicate Answers(nr: int, x: seq<Byte>, max: nat)
      reads this
    {
      && calls == old(calls) + 1 && last == nr && given == old(given) + x
      && 0 < pieces <= 64 && room <= max && (room == max || pieces == 64)
    }

    /** An error, or the number of bytes that were given. Some may be written even if there is an error. */
    method ReadV(h: Heap, chain: seq<BlockId>, n: nat, space: nat) returns (nr: int, ghost x: seq<Byte>)
      requires n <= |chain| && AllDistinct(chain) && MemOk(h.m) && Roomy(h.m, chain)
      modifies this, h`m
      ensures |x| == (if nr > 0 then nr else 0) <= space && Pending(h.m, chain, 0, x)
      ensures calls == old(calls) + 1 && pieces == n && room == space && last == nr && given == old(given) + x
      ensures Scribbled(old(h.m), chain[0..n], h.m)
      ensures Effect(old(h.m), multiset{}, h.m, multiset{}) && MemOk(h.m) && Roomy(h.m, chain)
    {
      hide MemOk, Roomy, AllDistinct, Effect, Pending, Scribbled;
      var y := FillSome(h, chain, 0, n, space);
      x, nr := y, *;
      if nr >= 0 {
        nr := |y|;
      } else {
        x := [];
        NothingPending(h.m, chain, x);
      }
      calls, pieces, room, last, given := calls + 1, n, space, nr, given + x;
    }
  }

  lemma EffectOk(m: Mem, m': Mem)
    requires Effect(m, multiset{}, m', multiset{})
    ensures MemOk(m')
  {
  }

  // ---- Handing out what was read ----

  lemma {:induction false} PendingShift(m: Mem, chain: seq<BlockId>, i: nat, x: seq<Byte>)
    requires chain != [] && Pending(m, chain, i + 1, x)
    ensures Pending(m, chain[1..], i, x)
    decreases |x|
  {
    if x != [] {
      assert chain[1..][i] == chain[i + 1];
      PendingShift(m, chain, i + 1, x[MinOf(|x|, Space(m[chain[i + 1]]))..]);
    }
  }

  /** The ref to the next of the bytes that were read. */
  function ReadRef(m: Mem, chain: seq<BlockId>, x: seq<Byte>): BlockRef
    requires chain != [] && chain[0] in m
  {
    BlockRef(m[chain[0]].size, MinOf(|x|, Space(m[chain[0]])), chain[0])
  }

  lemma WriteSame(m: Mem, b: BlockId, y: seq<Byte>)
    requires b in m && m[b].size + |y| <= |m[b].data| && m[b].data[m[b].size..m[b].size + |y|] == y
    ensures Write(m, b, y) == m
  {
    var d, o := m[b].data, m[b].size;
    assert d[..o] + y + d[o + |y|..] == d;
  }

  /** A ref is pushed to bytes that lie behind the size of the first block. */
  lemma ClaimStep(m: Mem, s: seq<BlockRef>, tls: seq<BlockId>, chain: seq<BlockId>, x: seq<Byte>)
    requires Fit(m, s, tls, chain) && Pending(m, chain, 0, x) && x != []
    ensures chain != [] && chain[0] in m
    ensures var r := ReadRef(m, chain, x); var b := chain[0]; var m1 := PushMem(m, s, r);
      && 0 < r.length <= |x| && Fits(m, r) && b in m1
      && HandOut(m1, b, r.length) == PushMem(HandOut(m, b, r.length), s, r)
      && Appended(m, s, Links(tls, chain), HandOut(m1, b, r.length), PushBack(s, r), Links(tls, chain), x[..r.length])
  {
    FitIs(m, s, tls, chain);
    var b, r := chain[0], ReadRef(m, chain, x);
    var y := x[..r.length];
    BlockOf(m, chain, 0);
    WriteSame(m, b, y);
    FillStep(m, s, Links(tls, chain), b, y);
    HandOutLast(m, b, y, s, r);
    FitsIs(m, r);
  }

  lemma FitsIs(m: Mem, r: BlockRef)
    requires r.block in m && r.block != NULL && r.offset + r.length <= m[r.block].cap < BLOCK_LIMIT && r.length > 0
    ensures Fits(m, r)
  {
  }

  /** Only the first block grows. */
  lemma ClaimedBlocks(m: Mem, s: seq<BlockRef>, b: BlockId, r: BlockRef, k: BlockId)
    requires b in m && r.block == b && k in m
    ensures var m' := PushMem(HandOut(m, b, r.length), s, r);
      && k in m' && (k != b ==> m'[k] == m[k])
      && (k == b ==> m'[k].size == m[k].size + r.length && m'[k].cap == m[k].cap && m'[k].data == m[k].data)
  {
  }

  lemma DistinctChain(tls: seq<BlockId>, chain: seq<BlockId>)
    requires Single(Links(tls, chain))
    ensures AllDistinct(chain)
  {
    forall i, j | 0 <= i < j < |chain|
      ensures chain[i] != chain[j]
    {
      Apart(tls, chain, j);
      assert chain[i] in chain[..j];
    }
  }

  /** Memory after the next ref was pushed. */
  function Claimed(m: Mem, s: seq<BlockRef>, chain: seq<BlockId>, x: seq<Byte>): Mem
    requires chain != [] && chain[0] in m
  {
    PushMem(HandOut(m, chain[0], ReadRef(m, chain, x).length), s, ReadRef(m, chain, x))
  }

  lemma ClaimedLater(m: Mem, s: seq<BlockRef>, tls: seq<BlockId>, chain: seq<BlockId>, x: seq<Byte>, j: nat)
    requires Fit(m, s, tls, chain) && 1 <= j < |chain|
    ensures chain[0] in m && chain[j] in m && chain[j] != chain[0]
    ensures chain[j] in Claimed(m, s, chain, x) && Claimed(m, s, chain, x)[chain[j]] == m[chain[j]]
      && !Full(m[chain[j]])
  {
    FitIs(m, s, tls, chain);
    DistinctChain(tls, chain);
    ClaimedBlocks(m, s, chain[0], ReadRef(m, chain, x), chain[j]);
  }

  lemma ClaimedFirst(m: Mem, s: seq<BlockRef>, tls: seq<BlockId>, chain: seq<BlockId>, x: seq<Byte>)
    requires Fit(m, s, tls, chain) && Pending(m, chain, 0, x) && x != []
    ensures chain != [] && chain[0] in m && ReadRef(m, chain, x).length <= |x|
    ensures var b, m1 := chain[0], Claimed(m, s, chain, x);
      b in m1 && (Full(m1[b]) || ReadRef(m, chain, x).length == |x|)
  {
    FitIs(m, s, tls, chain);
    BlockOf(m, chain, 0);
    ClaimedBlocks(m, s, chain[0], ReadRef(m, chain, x), chain[0]);
  }

  /** The rest of what was read still lies there. */
  lemma ClaimedPending(m: Mem, s: seq<BlockRef>, tls: seq<BlockId>, chain: seq<BlockId>, x: seq<Byte>)
    requires Fit(m, s, tls, chain) && Pending(m, chain, 0, x) && x != []
    ensures chain != [] && chain[0] in m && ReadRef(m, chain, x).length <= |x|
    ensures Pending(Claimed(m, s, chain, x), chain, 1, x[ReadRef(m, chain, x).length..])
  {
    hide Fit, Claimed;
    forall j | 1 <= j < |chain|
      ensures chain[j] in m && chain[j] in Claimed(m, s, chain, x) && Claimed(m, s, chain, x)[chain[j]] == m[chain[j]]
    {
      ClaimedLater(m, s, tls, chain, x, j);
    }
    PendingSame(m, Claimed(m, s, chain, x), chain, 1, x[ReadRef(m, chain, x).length..]);
  }

  /** Only the first block of the chain changes when a ref to it is pushed, and when it is given up. */
  lemma ClaimedSpares(m: Mem, s: seq<BlockRef>, tls: seq<BlockId>, chain: seq<BlockId>, x: seq<Byte>)
    requires chain != [] && chain[0] in m
    ensures var m1 := Claimed(m, s, chain, x);
      && Spares(m, Links(tls, chain), m1, Links(tls, chain))
      && Spares(m, Links(tls, chain), Blocks.DecRef(m1, chain[0]), Links(tls, chain[1..]))
  {
    HeadClaim(chain);
    var m1 := Claimed(m, s, chain, x);
    forall b | b in m && b !in Links(tls, chain)
      ensures b in m1 && m1[b] == m[b] && b != chain[0] && b !in Links(tls, chain[1..])
    {
      assert b !in multiset(chain);
      ClaimedBlocks(m, s, chain[0], ReadRef(m, chain, x), b);
    }
  }

  /** The first block has room left: it stays. */
  lemma ClaimStays(m: Mem, s: seq<BlockRef>, tls: seq<BlockId>, chain: seq<BlockId>, x: seq<Byte>, s': seq<BlockRef>)
    requires Fit(m, s, tls, chain) && chain != [] && chain[0] in m
    requires var m1 := Claimed(m, s, chain, x);
      chain[0] in m1 && !Full(m1[chain[0]]) && Ready(m1, s', Links(tls, chain))
    ensures Fit(Claimed(m, s, chain, x), s', tls, chain)
  {
    hide Claimed, Ready;
    FitIs(m, s, tls, chain);
    forall j | 0 <= j < |chain|
      ensures chain[j] in Claimed(m, s, chain, x) && !Full(Claimed(m, s, chain, x)[chain[j]])
    {
      if j > 0 {
        ClaimedLater(m, s, tls, chain, x, j);
      }
    }
    ToFit(Claimed(m, s, chain, x), s', tls, chain);
  }

  /** The first block is full: it is given up. */
  lemma ClaimLeaves(m: Mem, s: seq<BlockRef>, tls: seq<BlockId>, chain: seq<BlockId>, x: seq<Byte>, s': seq<BlockRef>)
    requires Fit(m, s, tls, chain) && chain != [] && chain[0] in m
    requires Ready(Claimed(m, s, chain, x), s', Links(tls, chain))
    ensures var m1, b := Claimed(m, s, chain, x), chain[0];
      && b in m1 && TlsStep(m1, Links(tls, chain), Blocks.DecRef(m1, b), Links(tls, chain[1..]))
      && Fit(Blocks.DecRef(m1, b), s', tls, chain[1..])
  {
    hide Claimed, Ready, TlsStep;
    FitIs(m, s, tls, chain);
    var m1, b := Claimed(m, s, chain, x), chain[0];
    ReadyIs(m1, s', Links(tls, chain));
    HeadClaim(chain);
    assert Links(tls, chain) == Links(tls, chain[1..]) + multiset{b};
    TlsDrop(m1, Links(tls, chain[1..]), b);
    var m2 := Blocks.DecRef(m1, b);
    BesideStep(m1, s', Links(tls, chain), m2, Links(tls, chain[1..]));
    AppendedReady(m1, s', Links(tls, chain), m2, s', Links(tls, chain[1..]), []);
    forall j | 0 <= j < |chain[1..]|
      ensures chain[1..][j] in m2 && !Full(m2[chain[1..][j]])
    {
      ClaimedLater(m, s, tls, chain, x, j + 1);
    }
    SingleLess(Links(tls, chain[1..]), Links(tls, chain));
    ToFit(m2, s', tls, chain[1..]);
  }

  lemma DroppedPending(m: Mem, s: seq<BlockRef>, tls: seq<BlockId>, chain: seq<BlockId>, x: seq<Byte>, y: seq<Byte>)
    requires Fit(m, s, tls, chain) && chain != [] && chain[0] in m && Pending(Claimed(m, s, chain, x), chain, 1, y)
    ensures Pending(Blocks.DecRef(Claimed(m, s, chain, x), chain[0]), chain[1..], 0, y)
  {
    hide Claimed, Fit;
    var m1 := Claimed(m, s, chain, x);
    var m2 := Blocks.DecRef(m1, chain[0]);
    forall j | 1 <= j < |chain|
      ensures chain[j] in m1 && chain[j] in m2 && m2[chain[j]] == m1[chain[j]]
    {
      ClaimedLater(m, s, tls, chain, x, j);
    }
    PendingSame(m1, m2, chain, 1, y);
    PendingShift(m2, chain, 0, y);
  }

  /** The chain of a portal goes back to the thread-local chain, or is given up when that is long enough. */
  ghost predicate Returned(m: Mem, tls: seq<BlockId>, chain: seq<BlockId>, m': Mem, tls': seq<BlockId>) {
    if chain != [] && |tls| >= 8 then m' == DropLinks(m, chain) && tls' == tls
    else m' == m && tls' == chain + tls
  }

  lemma {:induction false} DropLinksSpares(m: Mem, c: multiset<BlockId>, t: seq<BlockId>)
    requires forall b :: b in t ==> b in c
    ensures Spares(m, c, DropLinks(m, t), c)
    decreases |t|
  {
    if t != [] {
      assert t[0] in t;
      DropLinksSpares(Blocks.DecRef(m, t[0]), c, t[1..]);
    }
  }

  lemma ReturnedSpares(m: Mem, tls: seq<BlockId>, chain: seq<BlockId>, m': Mem, tls': seq<BlockId>)
    requires Returned(m, tls, chain, m', tls')
    ensures Spares(m, Links(tls, chain), m', Links(tls', [])) && Links(tls', []) <= Links(tls, chain)
  {
    assert Links(tls', []) == multiset(tls');
    if chain != [] && |tls| >= MAX_BLOCKS {
      assert forall b :: b in chain ==> b in multiset(chain);
      DropLinksSpares(m, Links(tls, chain), chain);
    } else {
      assert multiset(chain + tls) == Links(tls, chain);
    }
  }

  class IOPortal {
    const buf: IOBuf
    var chain: seq<BlockId>   // _block and the blocks linked behind it

    constructor ()
      ensures fresh(buf) && fresh(buf.q) && fresh(buf.q.ring) && buf.q.Valid() && buf.q.Refs() == [] && chain == []
    {
      buf := new IOBuf();
      chain := [];
    }

    /** return_cached_blocks */
    method ReturnCachedBlocks(h: Heap)
      requires TlsOk(h.m, Links(h.tls, chain)) && h.num == |h.tls|
      modifies `chain, h`m, h`tls, h`num
      ensures chain == [] && h.num == |h.tls| && multiset(h.tls) <= Links(old(h.tls), old(chain))
      ensures TlsStep(old(h.m), Links(old(h.tls), old(chain)), h.m, multiset(h.tls))
      ensures Returned(old(h.m), old(h.tls), old(chain), h.m, h.tls)
    {
      hide TlsStep, TlsOk;
      if chain != [] {
        ReleaseTlsBlockChain(h, chain);
        chain := [];
      } else {
        assert Links(h.tls, chain) == multiset(h.tls) && [] + h.tls == h.tls;
        TlsStart(h.m, multiset(h.tls));
      }
    }

    /** Takes as many blocks as have room for `max` bytes, but no more than fit into one call of the reader. */
    method Gather(h: Heap, max: nat, ghost s: seq<BlockRef>) returns (ok: bool, n: nat, space: nat)
      requires Fit(h.m, s, h.tls, chain) && h.num == |h.tls| && 0 < h.cap < BLOCK_LIMIT
      modifies `chain, h
      ensures Fit(h.m, s, h.tls, chain) && h.num == |h.tls|
      ensures Appended(old(h.m), s, Links(old(h.tls), old(chain)), h.m, s, Links(h.tls, chain), [])
      ensures Spares(old(h.m), Links(old(h.tls), old(chain)), h.m, Links(h.tls, chain))
      ensures h.fails == old(h.fails) + if ok then 0 else 1
      ensures ok ==>
        0 < n <= |chain| && n <= MAX_APPEND_IOVEC && space <= max && (space == max || n == MAX_APPEND_IOVEC)
    {
      hide Fit, Ready, Roomy, Single, Appended, TlsStep, TlsOk, Outside, Links, Space, MinOf, Spares, Handed;
      ghost var m0, c0 := h.m, Links(h.tls, chain);
      FitIs(m0, s, h.tls, chain);
      NothingAppended(m0, s, c0);
      SparesSelf(m0, c0);
      n, space := 0, 0;
      while true
        invariant Fit(h.m, s, h.tls, chain) && h.num == |h.tls| && 0 < h.cap < BLOCK_LIMIT
        invariant Appended(m0, s, c0, h.m, s, Links(h.tls, chain), [])
        invariant Spares(m0, c0, h.m, Links(h.tls, chain))
        invariant h.fails == old(h.fails)
        invariant n <= |chain| && n < MAX_APPEND_IOVEC && space <= max
        decreases MAX_APPEND_IOVEC - n
      {
        FitIs(h.m, s, h.tls, chain);
        if n == |chain| {
          ghost var m1, t1 := h.m, h.tls;
          var b;
          ghost var data;
          b, data := AcquireTlsBlock(h);
          HandedSpares(m1, t1, chain, b, data, h.m, h.tls);
          if b == NULL {
            SparesTrans(m0, c0, m1, Links(t1, chain), h.m, Links(h.tls, chain));
            NoneFits(m1, s, t1, chain, h.m, h.tls);
            AppendedTrans(m0, s, c0, m1, s, Links(t1, chain), [], h.m, s, Links(h.tls, chain), []);
            NoneTwice();
            return false, n, space;
          }
          SparesTrans(m0, c0, m1, Links(t1, chain), h.m, Links(h.tls, chain + [b]));
          AcquiredFits(m1, s, t1, chain, h.m, h.tls, b);
          AppendedTrans(m0, s, c0, m1, s, Links(t1, chain), [], h.m, s, Links(h.tls, chain + [b]), []);
          NoneTwice();
          chain := chain + [b];
          FitIs(h.m, s, h.tls, chain);
        }
        RoomyAt(h.m, chain, n);
        var left := Space(h.m[chain[n]]);
        var len := MinOf(left, max - space);
        MinOfIs(left, max - space);
        space := space + len;
        n := n + 1;
        if space >= max || n >= MAX_APPEND_IOVEC {
          return true, n, space;
        }
      }
    }

    /** A ref to the next bytes that were read is pushed, and the block is given up when it is full. */
    method Claim(h: Heap, total: nat, ghost x: seq<Byte>) returns (len: nat)
      requires buf.q.Valid() && Fit(h.m, buf.q.Refs(), h.tls, chain) && Pending(h.m, chain, 0, x) && total == |x| > 0
      modifies `chain, buf.q, buf.q.ring, h`m
      ensures buf.q.Valid() && (buf.q.ring == old(buf.q.ring) || fresh(buf.q.ring)) && 0 < len <= |x|
      ensures Fit(h.m, buf.q.Refs(), h.tls, chain) && Pending(h.m, chain, 0, x[len..])
      ensures Appended(old(h.m), old(buf.q.Refs()), Links(h.tls, old(chain)), h.m, buf.q.Refs(), Links(h.tls, chain),
        x[..len])
      ensures Spares(old(h.m), Links(h.tls, old(chain)), h.m, Links(h.tls, chain))
    {
      hide Fit, Ready, Appended, Links, Pending, PushMem, PushBack, RefQueue.Decode, RefQueue.Valid, RefQueue.Refs,
        Fits,
        TlsStep, Blocks.DecRef, Spares;
      ghost var m, s, t, ch := h.m, buf.q.Refs(), h.tls, chain;
      ClaimStep(m, s, t, ch, x);
      ClaimedFirst(m, s, t, ch, x);
      ClaimedPending(m, s, t, ch, x);
      ClaimedSpares(m, s, t, ch, x);
      var b := chain[0];
      len := MinOf(total, Space(h.m[b]));
      var r := BlockRef(h.m[b].size, len, b);
      buf.PushBackRef(r, h);
      h.m := HandOut(h.m, b, len);
      ghost var m1, s1 := h.m, buf.q.Refs();
      AppendedReady(m, s, Links(t, ch), m1, s1, Links(t, ch), x[..len]);
      if Full(h.m[b]) {
        ClaimLeaves(m, s, t, ch, x, s1);
        DroppedPending(m, s, t, ch, x, x[len..]);
        AppendedBeside(m, s, Links(t, ch), m1, s1, Links(t, ch), x[..len], Blocks.DecRef(m1, b), Links(t, ch[1..]));
        h.DecRef(b);
        chain := chain[1..];
      } else {
        ClaimStays(m, s, t, ch, x, s1);
        NothingPending(h.m, chain, x[len..]);
      }
    }

    /** append_from_reader: `x` is what the reader gave. */
    method AppendFromReader(h: Heap, max: nat, reader: Reader) returns (nr: int, ghost x: seq<Byte>)
      requires buf.q.Valid() && Fit(h.m, buf.q.Refs(), h.tls, chain) && h.num == |h.tls| && 0 < h.cap < BLOCK_LIMIT
      modifies `chain, buf.q, buf.q.ring, h, reader
      ensures buf.q.Valid() && (buf.q.ring == old(buf.q.ring) || fresh(buf.q.ring)) && h.num == |h.tls|
      ensures Fit(h.m, buf.q.Refs(), h.tls, chain)
      ensures |x| == (if nr > 0 then nr else 0) <= max
      ensures h.fails == old(h.fails) || (h.fails == old(h.fails) + 1 && nr == -1)
      ensures if h.fails == old(h.fails) then reader.Answers(nr, x, max) else unchanged(reader) && x == []
      ensures Appended(old(h.m), old(buf.q.Refs()), Links(old(h.tls), old(chain)), h.m, buf.q.Refs(),
        Links(h.tls, chain), x)
      ensures Spares(old(h.m), Links(old(h.tls), old(chain)), h.m, Links(h.tls, chain))
    {
      hide Fit, Ready, Appended, Links, Pending, Effect, MemOk, Roomy, AllDistinct, Scribbled, Spares, Single, TlsOk,
        TlsStep, Returned, RefQueue.Decode, RefQueue.Valid, RefQueue.Refs;
      ghost var m0, s0, c0 := h.m, buf.q.Refs(), Links(h.tls, chain);
      x := [];
      var ok, n, space := Gather(h, max, s0);
      if !ok {
        return -1, [];
      }
      ghost var m1, c1 := h.m, Links(h.tls, chain);
      FitIs(m1, s0, h.tls, chain);
      ReadIsFit(m1, s0, h.tls, chain);
      nr, x := reader.ReadV(h, chain, n, space);
      ReadFits(m0, s0, c0, m1, h.tls, chain, h.m);
      ScribbledSpares(m1, h.tls, chain, n, h.m);
      SparesTrans(m0, c0, m1, c1, h.m, c1);
      if nr <= 0 {
        var refs := buf.q.RefNum();
        if refs == 0 {
          ghost var m2, t2, ch2 := h.m, h.tls, chain;
          FitIs(m2, s0, t2, ch2);
          ReturnCachedBlocks(h);
          ReturnFits(m0, s0, c0, m2, t2, ch2, h.m, h.tls);
          ReturnedSpares(m2, t2, ch2, h.m, h.tls);
          SparesTrans(m0, c0, m2, Links(t2, ch2), h.m, Links(h.tls, []));
        }
        return;
      }
      var total: nat := 0;
      ReadOn(x, 0, 0);
      label Given:
      while total < nr
        invariant total <= nr == |x| && h.fails == old(h.fails)
        invariant buf.q.Valid() && (buf.q.ring == old(buf.q.ring) || fresh(buf.q.ring)) && h.num == |h.tls|
        invariant Fit(h.m, buf.q.Refs(), h.tls, chain) && Pending(h.m, chain, 0, x[total..])
        invariant Appended(m0, s0, c0, h.m, buf.q.Refs(), Links(h.tls, chain), x[..total])
        invariant Spares(m0, c0, h.m, Links(h.tls, chain))
        invariant unchanged@Given(reader)
      {
        ghost var m, s, c := h.m, buf.q.Refs(), Links(h.tls, chain);
        var len := Claim(h, nr - total, x[total..]);
        SparesTrans(m0, c0, m, c, h.m, Links(h.tls, chain));
        AppendedTrans(m0, s0, c0, m, s, c, x[..total], h.m, buf.q.Refs(), Links(h.tls, chain), x[total..][..len]);
        ReadOn(x, total, len);
        total := total + len;
      }
      ReadOn(x, |x|, 0);
    }
  }

  lemma ReadOn(x: seq<Byte>, p: nat, n: nat)
    requires p + n <= |x|
    ensures x[p..][n..] == x[p + n..] && x[..p] + x[p..][..n] == x[..p + n]
    ensures x[..|x|] == x == x[0..] && x[..0] == []
  {
  }

  lemma NothingPending(m: Mem, chain: seq<BlockId>, x: seq<Byte>)
    requires x == []
    ensures Pending(m, chain, 0, x)
  {
  }

  /** A reader can be called. */
  lemma ReadIsFit(m: Mem, s: seq<BlockRef>, tls: seq<BlockId>, chain: seq<BlockId>)
    requires Fit(m, s, tls, chain)
    ensures AllDistinct(chain) && MemOk(m) && Roomy(m, chain)
  {
    FitIs(m, s, tls, chain);
    DistinctChain(tls, chain);
  }

  /** What a reader scribbles behind the sizes is seen by nobody. */
  lemma ReadFits(m0: Mem, s: seq<BlockRef>, c0: multiset<BlockId>, m: Mem, tls: seq<BlockId>, chain: seq<BlockId>,
    m': Mem)
    requires Fit(m, s, tls, chain) && Appended(m0, s, c0, m, s, Links(tls, chain), [])
    requires Effect(m, multiset{}, m', multiset{}) && Roomy(m', chain)
    ensures Fit(m', s, tls, chain) && Appended(m0, s, c0, m', s, Links(tls, chain), [])
  {
    hide Fit, Appended, Ready, Roomy;
    FitIs(m, s, tls, chain);
    var c := Links(tls, chain);
    ReadyCovers(m, s, c);
    EffectFrame(m, multiset{}, m', multiset{}, c);
    assert multiset{} + c == c;
    EffectOk(m, m');
    BesideStep(m, s, c, m', c);
    AppendedReady(m, s, c, m', s, c, []);
    AppendedTrans(m0, s, c0, m, s, c, [], m', s, c, []);
    NoneTwice();
    ToFit(m', s, tls, chain);
  }

  /** The blocks of the portal went back to the thread-local chain. */
  lemma ReturnFits(m0: Mem, s: seq<BlockRef>, c0: multiset<BlockId>, m: Mem, tls: seq<BlockId>, chain: seq<BlockId>,
    m': Mem,
    tls': seq<BlockId>)
    requires Fit(m, s, tls, chain) && Appended(m0, s, c0, m, s, Links(tls, chain), [])
    requires TlsStep(m, Links(tls, chain), m', multiset(tls')) && multiset(tls') <= Links(tls, chain)
    ensures Fit(m', s, tls', []) && Appended(m0, s, c0, m', s, Links(tls', []), [])
  {
    hide Fit, Appended, Ready, TlsStep;
    FitIs(m, s, tls, chain);
    var c := Links(tls, chain);
    assert Links(tls', []) == multiset(tls');
    BesideStep(m, s, c, m', multiset(tls'));
    AppendedReady(m, s, c, m', s, multiset(tls'), []);
    AppendedTrans(m0, s, c0, m, s, c, [], m', s, multiset(tls'), []);
    NoneTwice();
    SingleLess(multiset(tls'), c);
    ToFit(m', s, tls', []);
  }

  lemma NoneTwice()
    ensures Eq<seq<Byte>>([] + [], [])
  {
    var none: seq<Byte> := [];
    assert none + none == none;
  }

  lemma MinOfIs(a: nat, b: nat)
    ensures MinOf(a, b) <= b
  {
  }

  lemma RoomyAt(m: Mem, chain: seq<BlockId>, i: nat)
    requires Roomy(m, chain) && i < |chain|
    ensures chain[i] in m
  {
  }
}
