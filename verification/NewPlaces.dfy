/** The places that appending adds to a buffer: nobody else refers to them. */
module NewPlaces {
  import opened Chunks
  import opened Blocks
  import opened RefPlaces
  import opened TlsBlocks
  import opened Growth
  import opened Overwrites

  /** The place was handed out, and more than the links `c` refer to its block. */
  predicate Taken(m: Mem, c: multiset<BlockId>, p: Place) {
    p.block in m && c[p.block] < m[p.block].nshared && p.at < m[p.block].size
  }

  ghost predicate AllNew(m: Mem, c: multiset<BlockId>, ps: seq<Place>) {
    forall k :: 0 <= k < |ps| ==> !Taken(m, c, ps[k])
  }

  /** What was taken stays so. */
  ghost predicate StillTaken(m: Mem, c: multiset<BlockId>, m': Mem, c': multiset<BlockId>) {
    forall b :: b in m && c[b] < m[b].nshared ==> b in m' && c'[b] < m'[b].nshared && m[b].size <= m'[b].size
  }

  lemma StillTrans(m0: Mem, c0: multiset<BlockId>, m1: Mem, c1: multiset<BlockId>, m2: Mem, c2: multiset<BlockId>)
    requires StillTaken(m0, c0, m1, c1) && StillTaken(m1, c1, m2, c2)
    ensures StillTaken(m0, c0, m2, c2)
  {
  }

  lemma NewBefore(m: Mem, c: multiset<BlockId>, m': Mem, c': multiset<BlockId>, ps: seq<Place>)
    requires StillTaken(m, c, m', c') && AllNew(m', c', ps)
    ensures AllNew(m, c, ps)
  {
  }

  lemma {:induction false} DropHeadsStill(m: Mem, t: seq<BlockId>)
    ensures var (m1, t1) := DropHeads(m, t); StillTaken(m, multiset(t), m1, multiset(t1))
    decreases |t|
  {
    if t != [] && !(t[0] in m && !Full(m[t[0]])) {
      HeadClaim(t);
      DropHeadsStill(DecRef(m, t[0]), t[1..]);
    }
  }

  lemma ServeStill(p: Spot, r: Round)
    requires CanServe(p, r)
    ensures StillTaken(p.m, multiset(p.t), Serve(p, r).m, multiset(Serve(p, r).t))
  {
    hide DropHeads;
    DropHeadsStill(p.m, p.t);
  }

  lemma PutStill(p: Spot, x: seq<Byte>)
    requires CanPut(p, x)
    ensures StillTaken(p.m, multiset(p.t), Put(p, x).m, multiset(p.t))
  {
  }

  /** What a buffer refers to is taken. */
  lemma HeldTaken(m: Mem, s: seq<BlockRef>, c: multiset<BlockId>, q: nat)
    requires Ready(m, s, c) && q < |Places(s)|
    ensures Taken(m, c, Places(s)[q])
  {
    LengthsAgree(m, s);
    BytePeek(m, s, q);
    var b := Places(s)[q].block;
    PlaceClaimed(s, |s|, q);
    assert Cnt(m, b) >= (Claims(s) + c)[b];
  }

  lemma {:induction false} PlaceClaimed(s: seq<BlockRef>, n: nat, q: nat)
    requires n <= |s| && q < |PlacesUpto(s, n)|
    ensures ClaimsUpto(s, n)[PlacesUpto(s, n)[q].block] > 0
  {
    if n > 0 && q < |PlacesUpto(s, n - 1)| {
      PlaceClaimed(s, n - 1, q);
    } else {
      SpanIs(s[n - 1], s[n - 1].length);
    }
  }

  /** The places a round adds: behind what the first block has handed out. */
  lemma PutPlaces(p: Spot, x: seq<Byte>)
    requires CanPut(p, x)
    ensures var ps := Span(NextRef(p, |x|));
      Places(Put(p, x).s) == Places(p.s) + ps && NoDup(ps) && AllNew(p.m, multiset(p.t), ps)
  {
    PushPlaces(p.s, NextRef(p, |x|));
    SpanIs(NextRef(p, |x|), |x|);
  }

  ghost predicate NotAdded(p: Spot, e: Spot) {
    || !(Places(p.s) <= Places(e.s)) || !NoDup(Places(e.s)[|Places(p.s)|..])
    || !AllNew(p.m, multiset(p.t), Places(e.s)[|Places(p.s)|..]) || !StillTaken(p.m, multiset(p.t), e.m, multiset(e.t))
  }

  /** From `p` to `e` the buffer got new places, each once. */
  ghost predicate Added(p: Spot, e: Spot) {
    !NotAdded(p, e)
  }

  lemma NoneAdded(p: Spot)
    ensures Added(p, p)
  {
    assert Places(p.s)[|Places(p.s)|..] == [];
  }

  lemma NewApart(m: Mem, c: multiset<BlockId>, ps: seq<Place>, qs: seq<Place>)
    requires NoDup(ps) && NoDup(qs) && AllNew(m, c, qs) && forall k :: 0 <= k < |ps| ==> Taken(m, c, ps[k])
    ensures NoDup(ps + qs)
  {
  }

  lemma RoundAdds(p: Spot, q: Spot, r: Round)
    requires Added(p, q) && ReadyAt(q) && CanRound(q, r)
    ensures Added(p, OneRound(q, r))
  {
    hide Serve, Put, CanServe, CanPut, NoDup, Places, Span, Taken, Ready, StillTaken;
    var u, e := Serve(q, r), OneRound(q, r);
    var x := r.chunk;
    ServeRefs(q, r);
    ServeStill(q, r);
    PutStill(u, x);
    PutPlaces(u, x);
    PutLinks(u, x);
    var ps := SpanOf(u, x);
    StillTrans(q.m, multiset(q.t), u.m, multiset(u.t), e.m, multiset(e.t));
    StillTrans(p.m, multiset(p.t), q.m, multiset(q.t), u.m, multiset(u.t));
    StillTrans(p.m, multiset(p.t), q.m, multiset(q.t), e.m, multiset(e.t));
    NewBefore(p.m, multiset(p.t), u.m, multiset(u.t), ps);
    var a := |Places(p.s)|;
    var had := Places(q.s)[a..];
    forall k | 0 <= k < |had|
      ensures Taken(u.m, multiset(u.t), had[k])
    {
      HeldTaken(q.m, q.s, multiset(q.t), a + k);
      TakenStays(q.m, multiset(q.t), u.m, multiset(u.t), had[k]);
    }
    NewApart(u.m, multiset(u.t), had, ps);
    assert Places(e.s)[a..] == had + ps;
  }

  function SpanOf(p: Spot, x: seq<Byte>): seq<Place>
    requires CanPut(p, x)
  {
    Span(NextRef(p, |x|))
  }

  lemma TakenStays(m: Mem, c: multiset<BlockId>, m': Mem, c': multiset<BlockId>, p: Place)
    requires StillTaken(m, c, m', c') && Taken(m, c, p)
    ensures Taken(m', c', p)
  {
  }

  lemma {:induction false} GrowAdds(p: Spot, rs: seq<Round>, n: nat)
    requires ReadyAt(p) && n <= |rs| && CanGrow(p, rs, n)
    ensures Added(p, Grow(p, rs, n))
  {
    hide ReadyAt, Added, OneRound, CanRound, Appended;
    if n == 0 {
      NoneAdded(p);
    } else {
      GrowAdds(p, rs, n - 1);
      GrowAppends(p, rs, n - 1);
      RoundAdds(p, Grow(p, rs, n - 1), rs[n - 1]);
    }
  }

  /** Appending adds places that nobody refers to, each once. */
  lemma GrownAdds(p: Spot, rs: seq<Round>, dry: bool, e: Spot)
    requires ReadyAt(p) && Grown(p, rs, dry, e)
    ensures Added(p, e)
  {
    hide ReadyAt, Grow, StillTaken, NoDup, AllNew, DropHeads, Places;
    var q := Grow(p, rs, |rs|);
    GrowAdds(p, rs, |rs|);
    if dry {
      DropHeadsStill(q.m, q.t);
      StillTrans(p.m, multiset(p.t), q.m, multiset(q.t), e.m, multiset(e.t));
    }
  }
}
