/**
 The chains of blocks: the thread-local one and those of the portals. A block has one link, so it is in
 at most one place of all chains together, and the blocks a portal keeps have room.
 */
module ChainLinks {
  import opened Blocks
  import opened TlsBlocks
  import opened Growth
  import opened Portals
  import opened World

  function ChainPart(x: Holder): Holder {
    if x.Chain? then x else Buffer([])
  }

  /** The holders with the refs of the buffers left out. */
  function ChainsOf(hs: seq<Holder>): (t: seq<Holder>)
    ensures |t| == |hs| && forall i :: 0 <= i < |hs| ==> t[i] == ChainPart(hs[i])
  {
    seq(|hs|, i requires 0 <= i < |hs| => ChainPart(hs[i]))
  }

  predicate IsPortal(w: State, k: nat) {
    k < |w.holders| && w.holders[k].Chain? && k != w.tls
  }

  ghost predicate Tangled(w: State) {
    || !Single(All(ChainsOf(w.holders)))
    || exists k: nat :: IsPortal(w, k) && !Roomy(w.m, w.holders[k].blocks)
  }

  /** No block is linked twice, and all blocks of portals have room. */
  ghost predicate ChainsOk(w: State) {
    !Tangled(w)
  }

  /** What holds in every reachable state. */
  ghost predicate Ok(w: State) {
    Counted(w) && ChainsOk(w)
  }

  // ---- Links and claims ----

  lemma {:induction false} LinksAreClaims(hs: seq<Holder>, n: nat, b: BlockId)
    requires n <= |hs|
    ensures AllUpto(ChainsOf(hs), n)[b] <= AllUpto(hs, n)[b]
  {
    if n > 0 {
      LinksAreClaims(hs, n - 1, b);
      NoClaims();
    }
  }

  /** A linked block is alive. */
  lemma LinkedLive(w: State, b: BlockId)
    requires Counted(w) && b in All(ChainsOf(w.holders))
    ensures b in w.m
  {
    LinksAreClaims(w.holders, |w.holders|, b);
    assert Cnt(w.m, b) == All(w.holders)[b];
  }

  // ---- What a portal starts from ----

  lemma TwoLinks(w: State, k: nat)
    requires ChainsOk(w) && TlsFits(w) && IsPortal(w, k)
    ensures Single(Links(w.holders[w.tls].blocks, w.holders[k].blocks)) && Roomy(w.m, w.holders[k].blocks)
  {
    var hs := ChainsOf(w.holders);
    Own2(hs, w.tls, k);
    AllSplit(hs, [w.tls, k], 2);
    assert Single(All(hs));
    SingleLess(Links(w.holders[w.tls].blocks, w.holders[k].blocks), All(hs));
  }

  /** In every reachable state a portal can read. */
  lemma CanRead(w: State, i: nat, k: nat)
    requires Ok(w) && i < |w.holders| && w.holders[i].Buffer? && IsPortal(w, k)
    ensures Fit(w.m, w.holders[i].refs, w.holders[w.tls].blocks, w.holders[k].blocks)
  {
    TwoLinks(w, k);
    ReadyFor(w, i, k);
    ToFit(w.m, w.holders[i].refs, w.holders[w.tls].blocks, w.holders[k].blocks);
  }

  lemma ReadyFor(w: State, i: nat, k: nat)
    requires Counted(w) && i < |w.holders| && w.holders[i].Buffer? && IsPortal(w, k)
    ensures Ready(w.m, w.holders[i].refs, Links(w.holders[w.tls].blocks, w.holders[k].blocks))
  {
    Own3(w.holders, i, w.tls, k);
    CoversOwn(w, [i, w.tls, k]);
  }

  // ---- Keeping the chains in order ----

  /** Blocks that stay and are not among the links `c` come no nearer to being full, nor among the links `c'`. */
  ghost predicate Calm(m: Mem, c: multiset<BlockId>, m': Mem, c': multiset<BlockId>) {
    forall b :: b in m && b in m' && b !in c ==> b !in c' && Full(m'[b]) == Full(m[b])
  }

  ghost predicate NotAround(w: State, who: seq<nat>, v: State) {
    || |v.holders| != |w.holders| || !Distinct(who, |w.holders|) || v.tls != w.tls
    || (exists i :: 0 <= i < |w.holders| && i !in who && v.holders[i] != w.holders[i])
    || !Single(Own(ChainsOf(v.holders), who))
    || !Calm(w.m, Own(ChainsOf(w.holders), who), v.m, Own(ChainsOf(v.holders), who))
    || exists k: nat :: k in who && IsPortal(v, k) && !Roomy(v.m, v.holders[k].blocks)
  }

  /** The chains of `who` stay in order and those of others are let be. */
  ghost predicate Around(w: State, who: seq<nat>, v: State) {
    !NotAround(w, who, v)
  }

  lemma SameRest(w: State, who: seq<nat>, v: State)
    requires Around(w, who, v)
    ensures Without(ChainsOf(w.holders), who, |who|) == Without(ChainsOf(v.holders), who, |who|)
  {
    var s, t := Without(ChainsOf(w.holders), who, |who|), Without(ChainsOf(v.holders), who, |who|);
    forall i | 0 <= i < |s|
      ensures s[i] == t[i]
    {
      if i in who {
        var l :| 0 <= l < |who| && who[l] == i;
      }
    }
  }

  /** A block that is linked by a holder that does not act. */
  lemma RestBlock(w: State, who: seq<nat>, v: State, b: BlockId)
    requires Ok(w) && Counted(v) && Around(w, who, v) && b in All(Without(ChainsOf(w.holders), who, |who|))
    ensures b in w.m && b in v.m && b !in Own(ChainsOf(v.holders), who) && Full(v.m[b]) == Full(w.m[b])
    ensures All(Without(ChainsOf(w.holders), who, |who|))[b] == 1
  {
    hide Calm, All, Own, Without;
    AllSplit(ChainsOf(w.holders), who, |who|);
    AllSplit(ChainsOf(v.holders), who, |who|);
    SameRest(w, who, v);
    LinkedLive(w, b);
    LinkedLive(v, b);
    assert Single(All(ChainsOf(w.holders)));
    RestCount(w, who, b);
    CalmAt(w, who, v, b);
  }

  lemma RestCount(w: State, who: seq<nat>, b: BlockId)
    requires Distinct(who, |w.holders|) && Single(All(ChainsOf(w.holders)))
    requires b in All(Without(ChainsOf(w.holders), who, |who|))
    ensures All(Without(ChainsOf(w.holders), who, |who|))[b] == 1 && b !in Own(ChainsOf(w.holders), who)
  {
    var c := All(ChainsOf(w.holders));
    AllSplit(ChainsOf(w.holders), who, |who|);
    assert c[b] <= 1;
  }

  lemma CalmAt(w: State, who: seq<nat>, v: State, b: BlockId)
    requires Around(w, who, v) && b in w.m && b in v.m && b !in Own(ChainsOf(w.holders), who)
    ensures b !in Own(ChainsOf(v.holders), who) && Full(v.m[b]) == Full(w.m[b])
  {
  }

  lemma KeepsSingle(w: State, who: seq<nat>, v: State)
    requires Ok(w) && Counted(v) && Around(w, who, v)
    ensures Single(All(ChainsOf(v.holders)))
  {
    hide All, Without, Ok, Counted, OwnUpto;
    var own, rest := Own(ChainsOf(v.holders), who), All(Without(ChainsOf(v.holders), who, |who|));
    AllSplit(ChainsOf(v.holders), who, |who|);
    SameRest(w, who, v);
    assert Single(own);
    forall b: BlockId
      ensures (own + rest)[b] <= 1
    {
      assert own[b] <= 1;
      if b in rest {
        RestBlock(w, who, v, b);
      }
    }
  }

  lemma KeepsRoomy(w: State, who: seq<nat>, v: State, k: nat)
    requires Ok(w) && Counted(v) && Around(w, who, v) && IsPortal(v, k)
    ensures Roomy(v.m, v.holders[k].blocks)
  {
    if k !in who {
      var t := v.holders[k].blocks;
      assert IsPortal(w, k) && w.holders[k].blocks == t;
      assert Roomy(w.m, t);
      forall a | 0 <= a < |t|
        ensures t[a] in v.m && !Full(v.m[t[a]])
      {
        OthersLink(w.holders, who, k, t[a]);
        RestBlock(w, who, v, t[a]);
        assert t[a] in w.m && !Full(w.m[t[a]]);
      }
    }
  }

  lemma OthersLink(hs: seq<Holder>, who: seq<nat>, k: nat, b: BlockId)
    requires Distinct(who, |hs|) && k < |hs| && k !in who && hs[k].Chain? && b in hs[k].blocks
    ensures b in All(Without(ChainsOf(hs), who, |who|))
  {
    var rest := Without(ChainsOf(hs), who, |who|);
    assert rest[k] == hs[k];
    assert b in HolderClaims(hs[k]);
    AllHas(rest, k, |rest|, b);
  }

  /** An operation that keeps the counters and lets other chains be keeps all in order. */
  lemma KeepsChains(w: State, who: seq<nat>, v: State)
    requires Ok(w) && Counted(v) && Around(w, who, v)
    ensures Ok(v)
  {
    hide Counted, Around, Single, Roomy;
    KeepsSingle(w, who, v);
    forall k: nat | IsPortal(v, k)
      ensures Roomy(v.m, v.holders[k].blocks)
    {
      KeepsRoomy(w, who, v, k);
    }
  }
}
