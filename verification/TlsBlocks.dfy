/**
 The blocks a thread keeps for appending (TLSData). The chain is `Heap.tls`, and every block in it
 holds one reference.
 */
module TlsBlocks {
  import opened Chunks
  import opened Blocks
  import opened IOBufs

  const MAX_BLOCKS := 8

  predicate Full(b: Block) {
    b.size >= b.cap
  }

  /** Every block of a chain has room. */
  ghost predicate Roomy(m: Mem, chain: seq<BlockId>) {
    forall i :: 0 <= i < |chain| ==> chain[i] in m && !Full(m[chain[i]])
  }

  ghost predicate NotTlsStep(m0: Mem, c0: multiset<BlockId>, m: Mem, c: multiset<BlockId>) {
    !MemOk(m) || !Covers(m, c) || !Effect(m0, c0, m, c)
  }

  /** The holder of the claims `c0` acted, holds `c` now and disturbed nobody. */
  ghost predicate TlsStep(m0: Mem, c0: multiset<BlockId>, m: Mem, c: multiset<BlockId>) {
    !NotTlsStep(m0, c0, m, c)
  }

  ghost predicate TlsOk(m: Mem, c: multiset<BlockId>) {
    TlsStep(m, c, m, c)
  }

  lemma TlsStart(m: Mem, c: multiset<BlockId>)
    requires TlsOk(m, c)
    ensures TlsStep(m, c, m, c)
  {
  }

  lemma TlsTrans(m0: Mem, c0: multiset<BlockId>, m1: Mem, c1: multiset<BlockId>, m2: Mem, c2: multiset<BlockId>)
    requires TlsStep(m0, c0, m1, c1) && TlsStep(m1, c1, m2, c2)
    ensures TlsStep(m0, c0, m2, c2)
  {
    EffectTrans(m0, c0, m1, c1, m2, c2);
  }

  lemma TlsStays(m0: Mem, c0: multiset<BlockId>, m: Mem, c: multiset<BlockId>)
    requires TlsStep(m0, c0, m, c)
    ensures TlsOk(m, c) && MemOk(m)
  {
    EffectRefl(m, c);
  }

  lemma TlsLive(m: Mem, c: multiset<BlockId>, b: BlockId)
    requires TlsOk(m, c) && b in c
    ensures b in m && b != NULL && BlockOk(m[b])
  {
    assert c[b] <= Cnt(m, b);
  }

  /** Giving up one reference. */
  lemma TlsDrop(m: Mem, c: multiset<BlockId>, b: BlockId)
    requires TlsOk(m, c + multiset{b})
    ensures b in m && TlsStep(m, c + multiset{b}, DecRef(m, b), c)
  {
    var m1 := DecRef(m, b);
    assert (c + multiset{b})[b] <= Cnt(m, b);
    DecRefEffect(m, b);
    EffectFrame(m, multiset{b}, m1, multiset{}, c);
    assert multiset{b} + c == c + multiset{b} && multiset{} + c == c;
  }

  /** A new block, with the one reference of its holder. */
  function Create(m: Mem, b: BlockId, data: seq<Byte>): Mem {
    m[b := Block(1, 0, |data|, data)]
  }

  lemma TlsCreate(m: Mem, c: multiset<BlockId>, b: BlockId, data: seq<Byte>)
    requires TlsOk(m, c) && b !in m && b != NULL && |data| < BLOCK_LIMIT
    ensures TlsStep(m, c, Create(m, b, data), c + multiset{b})
  {
    var m1 := Create(m, b, data);
    assert Effect(m, multiset{}, m1, multiset{b});
    EffectFrame(m, multiset{}, m1, multiset{b}, c);
    assert multiset{} + c == c && multiset{b} + c == c + multiset{b};
  }

  lemma HeadClaim(t: seq<BlockId>)
    requires t != []
    ensures multiset(t) == multiset(t[1..]) + multiset{t[0]} && t[0] in multiset(t)
  {
    assert t == [t[0]] + t[1..];
  }

  lemma PushClaim(t: seq<BlockId>, b: BlockId)
    ensures multiset([b] + t) == multiset(t) + multiset{b}
  {
  }

  /** create_block: any address that is not in use, or NULL when malloc fails. */
  method CreateBlock(h: Heap) returns (b: BlockId, ghost data: seq<Byte>)
    requires 0 < h.cap < BLOCK_LIMIT
    modifies h`m, h`fails
    ensures h.fails == old(h.fails) + if b == NULL then 1 else 0
    ensures b == NULL ==> h.m == old(h.m)
    ensures b != NULL ==> b !in old(h.m) && |data| == h.cap && h.m == Create(old(h.m), b, data)
  {
    b := *;
    if b == NULL || b in h.m {
      h.fails := h.fails + 1;
      return NULL, [];
    }
    var bytes: seq<Byte> := *;
    if |bytes| != h.cap {
      bytes := seq(h.cap, i => 0);
    }
    data := bytes;
    h.m := Create(h.m, b, bytes);
  }

  // ---- The chain ----

  /** Blocks that are not in the chain `t` are left alone. */
  ghost predicate Outside(m: Mem, t: seq<BlockId>, m': Mem) {
    forall b :: b in m && b !in t ==> b in m' && m'[b] == m[b]
  }

  lemma OutsideDrop(m: Mem, t: seq<BlockId>, m1: Mem, b: BlockId)
    requires Outside(m, t, m1) && b in t && b in m1
    ensures Outside(m, t, Blocks.DecRef(m1, b))
  {
  }

  lemma OutsideCreate(m: Mem, t: seq<BlockId>, m1: Mem, b: BlockId, data: seq<Byte>)
    requires Outside(m, t, m1) && b !in m1
    ensures Outside(m, t, Create(m1, b, data))
  {
  }

  /** The chain from its first block with room on. */
  function Roomed(m: Mem, t: seq<BlockId>): seq<BlockId> {
    if t == [] then []
    else if t[0] in m && !Full(m[t[0]]) then t
    else Roomed(m, t[1..])
  }

  /** Memory and the chain once its full heads are given up. */
  function DropHeads(m: Mem, t: seq<BlockId>): (Mem, seq<BlockId>)
    decreases |t|
  {
    if t == [] || (t[0] in m && !Full(m[t[0]])) then (m, t) else DropHeads(Blocks.DecRef(m, t[0]), t[1..])
  }

  /** Memory once the references of a chain are given up. */
  function DropLinks(m: Mem, t: seq<BlockId>): Mem
    decreases |t|
  {
    if t == [] then m else DropLinks(Blocks.DecRef(m, t[0]), t[1..])
  }

  /** The blocks of a chain are as big and as full as they were. */
  ghost predicate SameRoom(m: Mem, m': Mem, t: seq<BlockId>) {
    forall b :: b in t ==> b in m && b in m' && Full(m'[b]) == Full(m[b])
  }

  lemma {:induction false} RoomedSame(m: Mem, m': Mem, t: seq<BlockId>)
    requires SameRoom(m, m', t)
    ensures Roomed(m', t) == Roomed(m, t)
  {
    if t != [] {
      var b := t[0];
      assert b in t && Full(m'[b]) == Full(m[b]);
      assert forall c :: c in t[1..] ==> c in t;
      RoomedSame(m, m', t[1..]);
    }
  }

  /** A full block at the head is given up. */
  lemma RoomedDrop(m: Mem, t: seq<BlockId>)
    requires t != [] && TlsOk(m, multiset(t)) && t[0] in m && Full(m[t[0]])
    ensures Roomed(Blocks.DecRef(m, t[0]), t[1..]) == Roomed(m, t)
  {
    HeadClaim(t);
    var m1 := Blocks.DecRef(m, t[0]);
    TlsDrop(m, multiset(t[1..]), t[0]);
    TlsStays(m, multiset(t), m1, multiset(t[1..]));
    forall b | b in t[1..]
      ensures b in m && b in m1 && Full(m1[b]) == Full(m[b])
    {
      TlsLive(m1, multiset(t[1..]), b);
      TlsLive(m, multiset(t), b);
    }
    RoomedSame(m, m1, t[1..]);
  }

  lemma InOld(t: seq<BlockId>, u: seq<BlockId>)
    requires multiset(t) <= multiset(u) && t != []
    ensures t[0] in u && multiset(t[1..]) <= multiset(u)
  {
    HeadClaim(t);
    assert t[0] in multiset(u);
  }

  /** The first block with room is at the head, or the new block `b` with the bytes `data`, or there is none. */
  ghost predicate Served(m: Mem, t: seq<BlockId>, b: BlockId, data: seq<Byte>, m': Mem, t': seq<BlockId>) {
    var (m1, t1) := DropHeads(m, t);
    if t1 != [] || b == NULL then m' == m1 && t' == t1
    else b !in m1 && m' == Create(m1, b, data) && t' == [b]
  }

  /** share_tls_block: a block with room that stays in the chain. */
  method ShareTlsBlock(h: Heap) returns (b: BlockId, ghost data: seq<Byte>)
    requires TlsOk(h.m, multiset(h.tls)) && h.num == |h.tls| && 0 < h.cap < BLOCK_LIMIT
    modifies h
    ensures TlsStep(old(h.m), multiset(old(h.tls)), h.m, multiset(h.tls)) && h.num == |h.tls|
    ensures h.fails == old(h.fails) + if b == NULL then 1 else 0
    ensures b == NULL ==> h.tls == []
    ensures b != NULL ==> |h.tls| > 0 && h.tls[0] == b && b in h.m && !Full(h.m[b])
    ensures var t := Roomed(old(h.m), old(h.tls)); if t != [] then h.tls == t else h.tls == [] || h.tls == [b]
    ensures Served(old(h.m), old(h.tls), b, data, h.m, h.tls) && (b != NULL ==> |data| == h.cap)
  {
    data := seq(h.cap, _ => 0);
    DropFull(h);
    if |h.tls| > 0 {
      return h.tls[0], data;
    }
    ghost var m1 := h.m;
    TlsStays(old(h.m), multiset(old(h.tls)), m1, multiset([]));
    b, data := CreateBlock(h);
    if b != NULL {
      TlsCreate(m1, multiset([]), b, data);
      PushClaim([], b);
      TlsTrans(old(h.m), multiset(old(h.tls)), m1, multiset([]), h.m, multiset([b]));
      h.tls := [b];
      h.num := h.num + 1;
    }
  }

  /** Full blocks at the head of the chain are given up. */
  method DropFull(h: Heap)
    requires TlsOk(h.m, multiset(h.tls)) && h.num == |h.tls|
    modifies h`m, h`tls, h`num
    ensures TlsStep(old(h.m), multiset(old(h.tls)), h.m, multiset(h.tls)) && h.num == |h.tls|
    ensures |h.tls| > 0 ==> h.tls[0] in h.m && !Full(h.m[h.tls[0]])
    ensures Outside(old(h.m), old(h.tls), h.m) && multiset(h.tls) <= multiset(old(h.tls))
    ensures h.tls == Roomed(old(h.m), old(h.tls)) && (h.m, h.tls) == DropHeads(old(h.m), old(h.tls))
  {
    while |h.tls| > 0
      invariant Roomed(h.m, h.tls) == Roomed(old(h.m), old(h.tls))
      invariant DropHeads(h.m, h.tls) == DropHeads(old(h.m), old(h.tls))
      invariant TlsStep(old(h.m), multiset(old(h.tls)), h.m, multiset(h.tls)) && h.num == |h.tls|
      invariant Outside(old(h.m), old(h.tls), h.m) && multiset(h.tls) <= multiset(old(h.tls))
    {
      var b := h.tls[0];
      HeadClaim(h.tls);
      TlsStays(old(h.m), multiset(old(h.tls)), h.m, multiset(h.tls));
      TlsDrop(h.m, multiset(h.tls[1..]), b);
      if !Full(h.m[b]) {
        return;
      }
      TlsTrans(old(h.m), multiset(old(h.tls)), h.m, multiset(h.tls), Blocks.DecRef(h.m, b), multiset(h.tls[1..]));
      RoomedDrop(h.m, h.tls);
      InOld(h.tls, old(h.tls));
      OutsideDrop(old(h.m), old(h.tls), h.m, b);
      h.DecRef(b);
      h.num := h.num - 1;
      h.tls := h.tls[1..];
    }
  }

  /** The first block with room leaves the chain, or the new block `b` with the bytes `data` is made, or neither. */
  ghost predicate Handed(m: Mem, t: seq<BlockId>, b: BlockId, data: seq<Byte>, m': Mem, t': seq<BlockId>) {
    var (m1, t1) := DropHeads(m, t);
    if t1 != [] then m' == m1 && b == t1[0] && t' == t1[1..]
    else t' == [] && if b == NULL then m' == m1 else b !in m1 && m' == Create(m1, b, data)
  }

  /** acquire_tls_block: a block with room leaves the chain, or a new one is made. */
  method AcquireTlsBlock(h: Heap) returns (b: BlockId, ghost data: seq<Byte>)
    requires TlsOk(h.m, multiset(h.tls)) && h.num == |h.tls| && 0 < h.cap < BLOCK_LIMIT
    modifies h
    ensures h.num == |h.tls|
    ensures h.fails == old(h.fails) + if b == NULL then 1 else 0
    ensures b == NULL ==> h.tls == [] && TlsStep(old(h.m), multiset(old(h.tls)), h.m, multiset(h.tls))
    ensures b != NULL ==> b in h.m && !Full(h.m[b])
    ensures b != NULL ==> TlsStep(old(h.m), multiset(old(h.tls)), h.m, multiset(h.tls) + multiset{b})
    ensures Outside(old(h.m), old(h.tls), h.m) && multiset(h.tls) <= multiset(old(h.tls))
    ensures b != NULL ==> h.m[b].nshared == 1 || multiset(h.tls) + multiset{b} <= multiset(old(h.tls))
    ensures var t := Roomed(old(h.m), old(h.tls)); if t != [] then b == t[0] && h.tls == t[1..] else h.tls == []
    ensures Handed(old(h.m), old(h.tls), b, data, h.m, h.tls)
  {
    data := [];
    DropFull(h);
    if |h.tls| > 0 {
      b := h.tls[0];
      HeadClaim(h.tls);
      TlsStays(old(h.m), multiset(old(h.tls)), h.m, multiset(h.tls));
      TlsLive(h.m, multiset(h.tls), b);
      h.tls := h.tls[1..];
      h.num := h.num - 1;
      return;
    }
    ghost var m1 := h.m;
    TlsStays(old(h.m), multiset(old(h.tls)), m1, multiset([]));
    b, data := CreateBlock(h);
    if b != NULL {
      TlsCreate(m1, multiset([]), b, data);
      TlsTrans(old(h.m), multiset(old(h.tls)), m1, multiset([]), h.m, multiset([]) + multiset{b});
      OutsideCreate(old(h.m), old(h.tls), m1, b, data);
    }
  }

  /** release_tls_block: the block goes back to the chain if it has room and the chain is short. */
  method ReleaseTlsBlock(h: Heap, b: BlockId)
    requires b != NULL ==> TlsOk(h.m, multiset(h.tls) + multiset{b})
    requires b == NULL ==> TlsOk(h.m, multiset(h.tls))
    requires h.num == |h.tls|
    modifies h`m, h`tls, h`num
    ensures h.num == |h.tls|
    ensures var own := multiset(old(h.tls)) + (if b == NULL then multiset{} else multiset{b});
      TlsStep(old(h.m), own, h.m, multiset(h.tls))
    ensures h.tls == if b != NULL && b in old(h.m) && !Full(old(h.m)[b]) && |old(h.tls)| < 8
                     then [b] + old(h.tls) else old(h.tls)
  {
    if b == NULL {
      assert multiset(h.tls) + multiset{} == multiset(h.tls);
      return;
    }
    TlsDrop(h.m, multiset(h.tls), b);
    if Full(h.m[b]) {
      h.DecRef(b);
    } else if h.num >= MAX_BLOCKS {
      h.DecRef(b);
    } else {
      PushClaim(h.tls, b);
      h.tls := [b] + h.tls;
      h.num := h.num + 1;
    }
  }

  /** release_tls_block_chain: all of a chain is kept or all of it is given up. */
  method ReleaseTlsBlockChain(h: Heap, chain: seq<BlockId>)
    requires TlsOk(h.m, multiset(h.tls) + multiset(chain)) && h.num == |h.tls|
    modifies h`m, h`tls, h`num
    ensures TlsStep(old(h.m), multiset(old(h.tls)) + multiset(chain), h.m, multiset(h.tls)) && h.num == |h.tls|
    ensures h.tls == if |old(h.tls)| >= 8 then old(h.tls) else chain + old(h.tls)
    ensures h.m == if |old(h.tls)| >= 8 then DropLinks(old(h.m), chain) else old(h.m)
  {
    if h.num >= MAX_BLOCKS {
      GiveUp(h, chain);
      return;
    }
    assert multiset(chain + h.tls) == multiset(h.tls) + multiset(chain);
    h.tls := chain + h.tls;
    h.num := h.num + |chain|;
  }

  /** Drops the references of a chain. */
  method GiveUp(h: Heap, chain: seq<BlockId>)
    requires TlsOk(h.m, multiset(h.tls) + multiset(chain))
    modifies h`m
    ensures TlsStep(old(h.m), multiset(h.tls) + multiset(chain), h.m, multiset(h.tls))
      && h.m == DropLinks(old(h.m), chain)
  {
    hide *;
    ghost var own := multiset(h.tls);
    var rest := chain;
    TlsStart(h.m, own + multiset(chain));
    while |rest| > 0
      invariant TlsStep(old(h.m), own + multiset(chain), h.m, own + multiset(rest))
      invariant DropLinks(h.m, rest) == DropLinks(old(h.m), chain)
    {
      DropLinksOn(h.m, rest);
      HeadClaim(rest);
      var b := rest[0];
      assert own + multiset(rest) == own + multiset(rest[1..]) + multiset{b};
      TlsStays(old(h.m), own + multiset(chain), h.m, own + multiset(rest));
      TlsDrop(h.m, own + multiset(rest[1..]), b);
      TlsTrans(old(h.m), own + multiset(chain), h.m, own + multiset(rest), Blocks.DecRef(h.m, b),
        own + multiset(rest[1..]));
      h.DecRef(b);
      rest := rest[1..];
    }
    DropLinksOn(h.m, rest);
    assert own + multiset([]) == own;
  }

  lemma DropLinksOn(m: Mem, t: seq<BlockId>)
    ensures t == [] ==> DropLinks(m, t) == m
    ensures t != [] ==> DropLinks(m, t) == DropLinks(Blocks.DecRef(m, t[0]), t[1..])
  {
  }

  /** remove_tls_block_chain */
  method RemoveTlsBlockChain(h: Heap)
    requires TlsOk(h.m, multiset(h.tls)) && h.num == |h.tls|
    modifies h`m, h`tls, h`num
    ensures TlsStep(old(h.m), multiset(old(h.tls)), h.m, multiset{}) && h.tls == [] && h.num == 0
    ensures h.m == DropLinks(old(h.m), old(h.tls))
  {
    var chain := h.tls;
    h.tls, h.num := [], 0;
    assert multiset([]) + multiset(chain) == multiset(chain);
    GiveUp(h, chain);
  }
}
