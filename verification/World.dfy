/**
 All buffers of a process together. A holder is a buffer with its refs or a chain of blocks (the
 thread-local chain, or the blocks a portal keeps). An operation is an action of some holders.
 */
module World {
  import opened Chunks
  import opened Blocks
  import opened RefSteps
  import opened TlsBlocks
  import opened Growth

  datatype Holder = Buffer(refs: seq<BlockRef>) | Chain(blocks: seq<BlockId>)

  /** Memory, the holders, which of them is the thread-local chain, and num_blocks. */
  datatype State = State(m: Mem, holders: seq<Holder>, tls: nat, num: int)

  function HolderClaims(x: Holder): multiset<BlockId> {
    match x
    case Buffer(s) => Claims(s)
    case Chain(t) => multiset(t)
  }

  /** What the first `n` holders refer to. */
  function AllUpto(hs: seq<Holder>, n: nat): multiset<BlockId>
    requires n <= |hs|
  {
    if n == 0 then multiset{} else AllUpto(hs, n - 1) + HolderClaims(hs[n - 1])
  }

  function All(hs: seq<Holder>): multiset<BlockId> {
    AllUpto(hs, |hs|)
  }

  predicate HolderOk(m: Mem, x: Holder) {
    x.Buffer? ==> RefsOk(m, x.refs)
  }

  ghost predicate Unbalanced(m: Mem, c: multiset<BlockId>) {
    exists b: BlockId :: Cnt(m, b) != c[b]
  }

  /** The counter of every block is the number of refs and chain links to it. */
  ghost predicate Balanced(m: Mem, c: multiset<BlockId>) {
    !Unbalanced(m, c)
  }

  ghost predicate TlsFits(w: State) {
    w.tls < |w.holders| && w.holders[w.tls].Chain? && w.num == |w.holders[w.tls].blocks|
  }

  /** Every counter is right, and so is the number of blocks in the thread-local chain. */
  ghost predicate Counted(w: State) {
    && MemOk(w.m) && (forall i :: 0 <= i < |w.holders| ==> HolderOk(w.m, w.holders[i])) && Balanced(w.m, All(w.holders))
    && TlsFits(w)
  }

  /** A block is live exactly when something refers to it. */
  lemma LiveIff(w: State, b: BlockId)
    requires Counted(w)
    ensures b in w.m <==> b in All(w.holders)
    ensures b in w.m ==> w.m[b].nshared == All(w.holders)[b]
  {
    assert Cnt(w.m, b) == All(w.holders)[b];
  }

  // ---- Actions ----

  predicate Distinct(who: seq<nat>, n: nat) {
    && (forall k :: 0 <= k < |who| ==> who[k] < n)
    && (forall k, l :: 0 <= k < l < |who| ==> who[k] != who[l])
  }

  /** The claims of the holders that act. */
  function OwnUpto(hs: seq<Holder>, who: seq<nat>, k: nat): multiset<BlockId>
    requires k <= |who| && Distinct(who, |hs|)
  {
    if k == 0 then multiset{} else OwnUpto(hs, who, k - 1) + HolderClaims(hs[who[k - 1]])
  }

  function Own(hs: seq<Holder>, who: seq<nat>): multiset<BlockId>
    requires Distinct(who, |hs|)
  {
    OwnUpto(hs, who, |who|)
  }

  /** The holders without the first `k` of those that act. */
  function Without(hs: seq<Holder>, who: seq<nat>, k: nat): (t: seq<Holder>)
    requires k <= |who| && Distinct(who, |hs|)
    ensures |t| == |hs| && forall i :: 0 <= i < |hs| ==>
      t[i] == if exists l :: 0 <= l < k && who[l] == i then Buffer([]) else hs[i]
  {
    if k == 0 then hs else Without(hs, who, k - 1)[who[k - 1] := Buffer([])]
  }

  ghost predicate NotActs(w: State, who: seq<nat>, v: State) {
    || |v.holders| != |w.holders| || !Distinct(who, |w.holders|) || v.tls != w.tls
    || (exists i :: 0 <= i < |w.holders| && i !in who && v.holders[i] != w.holders[i])
    || (exists i :: 0 <= i < |v.holders| && i in who && !HolderOk(v.m, v.holders[i]))
    || !Effect(w.m, Own(w.holders, who), v.m, Own(v.holders, who))
    || !TlsFits(v)
  }

  /** The holders `who` act: their counters move with their refs and the blocks of others are kept. */
  ghost predicate Acts(w: State, who: seq<nat>, v: State) {
    !NotActs(w, who, v)
  }

  lemma Swap(a: multiset<BlockId>, b: multiset<BlockId>, c: multiset<BlockId>)
    ensures Eq((a + b) + c, (a + c) + b) && Eq(a + (c + b), (a + b) + c) && Eq(a + multiset{}, a)
      && Eq(multiset{} + a, a)
  {
    assert (a + b) + c == (a + c) + b == a + (c + b) && a + multiset{} == a == multiset{} + a;
  }

  lemma {:induction false} AllSame(hs: seq<Holder>, t: seq<Holder>, n: nat)
    requires n <= |hs| == |t| && forall k :: 0 <= k < n ==> hs[k] == t[k]
    ensures Eq(AllUpto(hs, n), AllUpto(t, n))
  {
    hide HolderClaims;
    if n > 0 {
      AllSame(hs, t, n - 1);
    }
  }

  lemma {:induction false} AllSet(hs: seq<Holder>, t: seq<Holder>, i: nat, n: nat, e: Holder)
    requires i < n <= |hs| && t == hs[i := e] && Eq(HolderClaims(e), multiset{})
    ensures Eq(AllUpto(hs, n), AllUpto(t, n) + HolderClaims(hs[i]))
  {
    hide HolderClaims;
    if n - 1 == i {
      AllSame(hs, t, i);
      Swap(AllUpto(t, i), multiset{}, multiset{});
    } else {
      AllSet(hs, t, i, n - 1, e);
      Swap(AllUpto(t, n - 1), HolderClaims(hs[i]), HolderClaims(hs[n - 1]));
    }
  }

  lemma NoClaims()
    ensures Eq(HolderClaims(Buffer([])), multiset{})
  {
  }

  /** The claims of all are those of the holders that act and those of the others. */
  lemma {:induction false} AllSplit(hs: seq<Holder>, who: seq<nat>, k: nat)
    requires k <= |who| && Distinct(who, |hs|)
    ensures Eq(All(hs), OwnUpto(hs, who, k) + All(Without(hs, who, k)))
  {
    hide HolderClaims, All;
    if k == 0 {
      Swap(All(hs), multiset{}, multiset{});
    } else {
      AllSplit(hs, who, k - 1);
      SplitOne(hs, who, k);
      Swap(OwnUpto(hs, who, k - 1), HolderClaims(hs[who[k - 1]]), All(Without(hs, who, k)));
    }
  }

  lemma SplitOne(hs: seq<Holder>, who: seq<nat>, k: nat)
    requires 0 < k <= |who| && Distinct(who, |hs|)
    ensures Eq(All(Without(hs, who, k - 1)), All(Without(hs, who, k)) + HolderClaims(hs[who[k - 1]]))
  {
    var rest := Without(hs, who, k - 1);
    NoClaims();
    assert rest[who[k - 1]] == hs[who[k - 1]];
    hide HolderClaims, AllUpto;
    AllSet(rest, Without(hs, who, k), who[k - 1], |hs|, Buffer([]));
  }

  lemma SameOthers(w: State, who: seq<nat>, v: State)
    requires Acts(w, who, v)
    ensures Without(w.holders, who, |who|) == Without(v.holders, who, |who|)
  {
    var s, t := Without(w.holders, who, |who|), Without(v.holders, who, |who|);
    forall i | 0 <= i < |s|
      ensures s[i] == t[i]
    {
      if i in who {
        var l :| 0 <= l < |who| && who[l] == i;
      }
    }
  }

  lemma {:induction false} AllHas(hs: seq<Holder>, i: nat, n: nat, b: BlockId)
    requires i < n <= |hs|
    ensures HolderClaims(hs[i])[b] <= AllUpto(hs, n)[b]
  {
    if i < n - 1 {
      AllHas(hs, i, n - 1, b);
    }
  }

  lemma BalancedOn(m: Mem, own: multiset<BlockId>, m': Mem, own': multiset<BlockId>, rest: multiset<BlockId>)
    requires Balanced(m, own + rest) && Effect(m, own, m', own')
    ensures Balanced(m', own' + rest) && Covers(m, own + rest)
  {
    forall b: BlockId
      ensures Cnt(m', b) == (own' + rest)[b]
    {
      assert Cnt(m, b) == (own + rest)[b];
      assert Cnt(m', b) + own[b] == Cnt(m, b) + own'[b];
    }
  }

  /** A holder that does not act keeps its blocks and sees the same bytes. */
  lemma BystanderKept(w: State, who: seq<nat>, v: State, i: nat)
    requires Counted(w) && Acts(w, who, v) && i < |w.holders| && i !in who
    ensures v.holders[i] == w.holders[i] && HolderOk(v.m, v.holders[i])
    ensures w.holders[i].Buffer? ==> Eq(Bytes(v.m, w.holders[i].refs), Bytes(w.m, w.holders[i].refs))
  {
    var own, own' := Own(w.holders, who), Own(v.holders, who);
    var rest := Without(w.holders, who, |who|);
    AllSplit(w.holders, who, |who|);
    assert rest[i] == w.holders[i];
    if w.holders[i].Buffer? {
      var s := w.holders[i].refs;
      CoversPart(w.m, own, rest, i);
      BystanderBytes(w.m, own, v.m, own', s);
    }
  }

  lemma CoversPart(m: Mem, own: multiset<BlockId>, rest: seq<Holder>, i: nat)
    requires Balanced(m, own + All(rest)) && i < |rest|
    ensures Covers(m, own + HolderClaims(rest[i]))
  {
    forall b: BlockId
      ensures (own + HolderClaims(rest[i]))[b] <= Cnt(m, b)
    {
      assert Cnt(m, b) == (own + All(rest))[b];
      AllHas(rest, i, |rest|, b);
    }
  }

  /** Every action keeps the whole in order. */
  lemma ActsKeeps(w: State, who: seq<nat>, v: State)
    requires Counted(w) && Acts(w, who, v)
    ensures Counted(v)
  {
    AllSplit(w.holders, who, |who|);
    AllSplit(v.holders, who, |who|);
    SameOthers(w, who, v);
    BalancedOn(w.m, Own(w.holders, who), v.m, Own(v.holders, who), All(Without(w.holders, who, |who|)));
    forall i | 0 <= i < |v.holders|
      ensures HolderOk(v.m, v.holders[i])
    {
      if i !in who {
        BystanderKept(w, who, v, i);
      }
    }
  }

  // ---- Beginning, and new holders ----

  predicate Init(w: State) {
    w.m == map[] && w.holders == [Chain([])] && w.tls == 0 && w.num == 0
  }

  predicate Comes(w: State, x: Holder, v: State) {
    x in [Buffer([]), Chain([])] && v == w.(holders := w.holders + [x])
  }

  lemma ComesKeeps(w: State, x: Holder, v: State)
    requires Counted(w) && Comes(w, x, v)
    ensures Counted(v)
  {
    var n := |w.holders|;
    AllSame(w.holders + [x], w.holders + [x], n);
    AllGrow(w.holders, x, n);
    assert HolderClaims(x) == multiset{};
    assert All(v.holders) == All(w.holders);
    forall i | 0 <= i < |v.holders|
      ensures HolderOk(v.m, v.holders[i])
    {
      assert i < n ==> v.holders[i] == w.holders[i];
    }
  }

  lemma {:induction false} AllGrow(hs: seq<Holder>, x: Holder, n: nat)
    requires n <= |hs|
    ensures Eq(AllUpto(hs + [x], n), AllUpto(hs, n))
  {
    hide HolderClaims;
    if n > 0 {
      AllGrow(hs, x, n - 1);
    }
  }

  lemma InitCounted(w: State)
    requires Init(w)
    ensures Counted(w)
  {
    assert AllUpto(w.holders, 0) == multiset{};
    assert HolderClaims(w.holders[0]) == multiset{};
  }

  // ---- The operations of IOBuf as actions ----

  lemma Own1(hs: seq<Holder>, i: nat)
    requires i < |hs|
    ensures Distinct([i], |hs|) && Eq(Own(hs, [i]), HolderClaims(hs[i]))
  {
    assert OwnUpto(hs, [i], 0) == multiset{};
    Swap(HolderClaims(hs[i]), multiset{}, multiset{});
  }

  lemma Own2(hs: seq<Holder>, i: nat, j: nat)
    requires i < |hs| && j < |hs| && i != j
    ensures Distinct([i, j], |hs|) && Eq(Own(hs, [i, j]), HolderClaims(hs[i]) + HolderClaims(hs[j]))
  {
    assert OwnUpto(hs, [i, j], 0) == multiset{};
    Swap(HolderClaims(hs[i]), multiset{}, multiset{});
    assert OwnUpto(hs, [i, j], 1) == multiset{} + HolderClaims(hs[i]);
  }

  lemma CoversOwn(w: State, who: seq<nat>)
    requires Counted(w) && Distinct(who, |w.holders|)
    ensures Covers(w.m, Own(w.holders, who))
  {
    AllSplit(w.holders, who, |who|);
    forall b: BlockId
      ensures Own(w.holders, who)[b] <= Cnt(w.m, b)
    {
      assert Cnt(w.m, b) == All(w.holders)[b];
    }
  }

  /** A buffer can be operated on. */
  lemma CanAct(w: State, i: nat)
    requires Counted(w) && i < |w.holders| && w.holders[i].Buffer?
    ensures Held(w.m, w.holders[i].refs)
  {
    Own1(w.holders, i);
    CoversOwn(w, [i]);
  }

  lemma CanActTogether(w: State, i: nat, j: nat)
    requires Counted(w) && i < |w.holders| && j < |w.holders| && i != j && w.holders[i].Buffer? && w.holders[j].Buffer?
    ensures Held2(w.m, w.holders[i].refs, w.holders[j].refs)
  {
    Own2(w.holders, i, j);
    CoversOwn(w, [i, j]);
  }

  lemma CanAppend(w: State, i: nat)
    requires Counted(w) && i < |w.holders| && w.holders[i].Buffer?
    ensures Ready(w.m, w.holders[i].refs, multiset(w.holders[w.tls].blocks)) && w.num == |w.holders[w.tls].blocks|
  {
    Own2(w.holders, i, w.tls);
    CoversOwn(w, [i, w.tls]);
  }

  /** The state after buffer `i` acted. */
  function After(w: State, i: nat, m: Mem, s: seq<BlockRef>): State
    requires i < |w.holders|
  {
    w.(m := m, holders := w.holders[i := Buffer(s)])
  }

  lemma TwoAct(w: State, i: nat, j: nat, v: State, x: Holder, y: Holder)
    requires i < |w.holders| && j < |w.holders| && i != j && v.holders == w.holders[i := x][j := y] && v.tls == w.tls
    requires HolderOk(v.m, x) && HolderOk(v.m, y) && TlsFits(v)
    requires Effect(w.m, HolderClaims(w.holders[i]) + HolderClaims(w.holders[j]), v.m,
      HolderClaims(x) + HolderClaims(y))
    ensures Acts(w, [i, j], v)
  {
    hide HolderClaims, Effect, HolderOk, Own;
    Own2(w.holders, i, j);
    Own2(v.holders, i, j);
  }

  /** pop_front, pop_back, cut1, clear and cutn into plain memory. */
  lemma LeftActs(w: State, i: nat, m: Mem, s: seq<BlockRef>, lo: nat, hi: nat)
    requires Counted(w) && i < |w.holders| && w.holders[i].Buffer? && Left(w.m, w.holders[i].refs, m, s, lo, hi)
    ensures Acts(w, [i], After(w, i, m, s))
  {
    hide Left, Effect, RefsOk, Claims, Counted;
    LeftIs(w.m, w.holders[i].refs, m, s, lo, hi);
    TlsStays2(w, i, i);
    Own1(w.holders, i);
    Own1(After(w, i, m, s).holders, i);
  }

  function After2(w: State, i: nat, j: nat, m: Mem, s: seq<BlockRef>, t: seq<BlockRef>): State
    requires i < |w.holders| && j < |w.holders|
  {
    w.(m := m, holders := w.holders[i := Buffer(s)][j := Buffer(t)])
  }

  lemma TlsStays2(w: State, i: nat, j: nat)
    requires Counted(w) && i < |w.holders| && j < |w.holders| && w.holders[i].Buffer? && w.holders[j].Buffer?
    ensures TlsFits(w) && i != w.tls && j != w.tls
  {
  }

  lemma LeftIs(m0: Mem, s0: seq<BlockRef>, m: Mem, s: seq<BlockRef>, lo: nat, hi: nat)
    requires Left(m0, s0, m, s, lo, hi)
    ensures RefsOk(m, s) && Effect(m0, Claims(s0), m, Claims(s))
  {
  }

  lemma MovedIs(m0: Mem, s0: seq<BlockRef>, t0: seq<BlockRef>, m: Mem, s: seq<BlockRef>, t: seq<BlockRef>, k: nat)
    requires Moved(m0, s0, t0, m, s, t, k)
    ensures RefsOk(m, s) && RefsOk(m, t) && Effect(m0, Claims(s0) + Claims(t0), m, Claims(s) + Claims(t))
  {
  }

  lemma SharedIs(m0: Mem, s: seq<BlockRef>, t0: seq<BlockRef>, m: Mem, t: seq<BlockRef>, x: seq<Byte>)
    requires Shared(m0, s, t0, m, t, x)
    ensures RefsOk(m, s) && RefsOk(m, t) && Effect(m0, Claims(s) + Claims(t0), m, Claims(s) + Claims(t))
  {
  }

  /** cutn into another buffer and append of a buffer that is given up. */
  lemma MovedActs(w: State, i: nat, j: nat, m: Mem, s: seq<BlockRef>, t: seq<BlockRef>, k: nat)
    requires Counted(w) && i < |w.holders| && j < |w.holders| && i != j && w.holders[i].Buffer? && w.holders[j].Buffer?
    requires Moved(w.m, w.holders[i].refs, w.holders[j].refs, m, s, t, k)
    ensures Acts(w, [i, j], After2(w, i, j, m, s, t))
  {
    hide Moved, Effect, RefsOk, Claims, Counted, Acts;
    MovedIs(w.m, w.holders[i].refs, w.holders[j].refs, m, s, t, k);
    TlsStays2(w, i, j);
    TwoAct(w, i, j, After2(w, i, j, m, s, t), Buffer(s), Buffer(t));
  }

  /** append of a buffer and append_to. */
  lemma SharedActs(w: State, i: nat, j: nat, m: Mem, t: seq<BlockRef>, x: seq<Byte>)
    requires Counted(w) && i < |w.holders| && j < |w.holders| && i != j && w.holders[i].Buffer? && w.holders[j].Buffer?
    requires Shared(w.m, w.holders[i].refs, w.holders[j].refs, m, t, x)
    ensures Acts(w, [i, j], After2(w, i, j, m, w.holders[i].refs, t))
  {
    hide Shared, Effect, RefsOk, Claims, Counted, Acts;
    var s := w.holders[i].refs;
    SharedIs(w.m, s, w.holders[j].refs, m, t, x);
    TlsStays2(w, i, j);
    TwoAct(w, i, j, After2(w, i, j, m, s, t), Buffer(s), Buffer(t));
  }

  function AfterAppend(w: State, i: nat, m: Mem, s: seq<BlockRef>, tls: seq<BlockId>): State
    requires i < |w.holders| && w.tls < |w.holders|
  {
    w.(m := m, holders := w.holders[i := Buffer(s)][w.tls := Chain(tls)], num := |tls|)
  }

  /** push_back, append, appendv, resize, reserve and append_user_data. */
  lemma AppendedActs(w: State, i: nat, m: Mem, s: seq<BlockRef>, tls: seq<BlockId>, x: seq<Byte>)
    requires Counted(w) && i < |w.holders| && w.holders[i].Buffer?
    requires Appended(w.m, w.holders[i].refs, multiset(w.holders[w.tls].blocks), m, s, multiset(tls), x)
    ensures Acts(w, [i, w.tls], AfterAppend(w, i, m, s, tls))
  {
    TwoAct(w, i, w.tls, AfterAppend(w, i, m, s, tls), Buffer(s), Chain(tls));
  }

  /** acquire_tls_block and release_tls_block_chain: blocks go between the thread-local chain and a portal. */
  lemma ChainActs(w: State, i: nat, m: Mem, tls: seq<BlockId>, mine: seq<BlockId>)
    requires Counted(w) && i < |w.holders| && w.holders[i].Chain? && i != w.tls
    requires TlsStep(w.m, multiset(w.holders[w.tls].blocks) + multiset(w.holders[i].blocks), m,
      multiset(tls) + multiset(mine))
    ensures Acts(w, [w.tls, i], AfterLend(w, i, m, tls, mine))
  {
    TwoAct(w, w.tls, i, AfterLend(w, i, m, tls, mine), Chain(tls), Chain(mine));
  }

  function AfterLend(w: State, i: nat, m: Mem, tls: seq<BlockId>, mine: seq<BlockId>): State
    requires i < |w.holders| && w.tls < |w.holders|
  {
    w.(m := m, holders := w.holders[w.tls := Chain(tls)][i := Chain(mine)], num := |tls|)
  }

  lemma Own3(hs: seq<Holder>, i: nat, j: nat, k: nat)
    requires i < |hs| && j < |hs| && k < |hs| && i != j && i != k && j != k
    ensures Distinct([i, j, k], |hs|)
    ensures Eq(Own(hs, [i, j, k]), HolderClaims(hs[i]) + (HolderClaims(hs[j]) + HolderClaims(hs[k])))
  {
    var who := [i, j, k];
    assert OwnUpto(hs, who, 0) == multiset{};
    assert OwnUpto(hs, who, 1) == multiset{} + HolderClaims(hs[i]);
    assert OwnUpto(hs, who, 2) == OwnUpto(hs, who, 1) + HolderClaims(hs[j]);
    Swap(HolderClaims(hs[i]), HolderClaims(hs[j]), HolderClaims(hs[k]));
    Swap(HolderClaims(hs[i]), HolderClaims(hs[k]), HolderClaims(hs[j]));
  }

  function AfterRead(w: State, i: nat, k: nat, m: Mem, s: seq<BlockRef>, tls: seq<BlockId>, chain: seq<BlockId>): State
    requires i < |w.holders| && k < |w.holders| && w.tls < |w.holders|
  {
    w.(m := m, holders := w.holders[i := Buffer(s)][w.tls := Chain(tls)][k := Chain(chain)], num := |tls|)
  }

  /** append_from_reader: the buffer of a portal, the thread-local chain and the chain of the portal. */
  lemma PortalActs(w: State, i: nat, k: nat, m: Mem, s: seq<BlockRef>, tls: seq<BlockId>, chain: seq<BlockId>,
    x: seq<Byte>)
    requires Counted(w) && i < |w.holders| && k < |w.holders| && w.holders[i].Buffer? && w.holders[k].Chain?
      && k != w.tls
    requires Appended(w.m, w.holders[i].refs, multiset(w.holders[w.tls].blocks) + multiset(w.holders[k].blocks),
      m, s, multiset(tls) + multiset(chain), x)
    ensures Acts(w, [i, w.tls, k], AfterRead(w, i, k, m, s, tls, chain))
  {
    hide Effect, RefsOk, Claims, Counted, Ready, Appended, Acts;
    TlsStays2(w, i, i);
    AppendedIs(w.m, w.holders[i].refs, multiset(w.holders[w.tls].blocks) + multiset(w.holders[k].blocks),
               m, s, multiset(tls) + multiset(chain), x);
    ThreeAct(w, i, w.tls, k, AfterRead(w, i, k, m, s, tls, chain), Buffer(s), Chain(tls), Chain(chain));
  }

  lemma ThreeAct(w: State, i: nat, j: nat, k: nat, v: State, x: Holder, y: Holder, z: Holder)
    requires i < |w.holders| && j < |w.holders| && k < |w.holders| && i != j && i != k && j != k
    requires v.holders == w.holders[i := x][j := y][k := z] && v.tls == w.tls && TlsFits(v)
    requires HolderOk(v.m, x) && HolderOk(v.m, y) && HolderOk(v.m, z)
    requires Effect(w.m, HolderClaims(w.holders[i]) + (HolderClaims(w.holders[j]) + HolderClaims(w.holders[k])),
      v.m, HolderClaims(x) + (HolderClaims(y) + HolderClaims(z)))
    ensures Acts(w, [i, j, k], v)
  {
    hide HolderClaims, Effect, HolderOk, Own;
    Own3(w.holders, i, j, k);
    Own3(v.holders, i, j, k);
  }

  lemma AppendedIs(m0: Mem, s0: seq<BlockRef>, c0: multiset<BlockId>, m: Mem, s: seq<BlockRef>, c: multiset<BlockId>,
    x: seq<Byte>)
    requires Appended(m0, s0, c0, m, s, c, x)
    ensures RefsOk(m, s) && Effect(m0, Claims(s0) + c0, m, Claims(s) + c)
  {
  }
}
