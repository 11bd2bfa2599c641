/**
 How many refs a buffer gets and how big the blocks of the thread-local chain are. Together they tell before a call
 whether reserve can name a place.
 */
module Budgets {
  import opened Chunks
  import opened Blocks
  import opened RefLists
  import opened RefSteps
  import opened RefRuns
  import opened TlsBlocks
  import opened Growth
  import opened Appends
  import opened Overwrites
  import opened World
  import opened Privacy
  import opened Runs
  import opened Recounts

  /** No block of the chain has more than `max` bytes. */
  predicate Low(m: Mem, t: seq<BlockId>, max: nat) {
    forall b :: b in t && b in m ==> m[b].cap <= max
  }

  // ---- Whether there is an area ----

  lemma {:induction false} RoomedIn(m: Mem, t: seq<BlockId>, max: nat)
    requires Low(m, t, max)
    ensures var u := Roomed(m, t); u != [] ==> u[0] in m && !Full(m[u[0]]) && m[u[0]].cap <= max
    decreases |t|
  {
    if t != [] {
      var b := t[0];
      assert b in t;
      if !(b in m && !Full(m[b])) {
        RoomedIn(m, t[1..], max);
      }
    }
  }

  /** With blocks of at most 32768 bytes there is an area as long as its ref is one of the first 524288. */
  lemma AreaExact(p: Spot, count: nat)
    requires Low(p.m, p.t, 32768) && 0 < count <= 0x3FFF_FFFF
    ensures HasArea(p, count) <==> |p.s| <= 524287 || (|p.s| == 524288 && Continues(p))
  {
    hide Roomed;
    RoomedIn(p.m, p.t, 32768);
  }

  // ---- Rounds ----

  /** The blocks that are left have the size they had. */
  ghost predicate SameCaps(m: Mem, m': Mem) {
    forall b: BlockId :: b in m' ==> b in m && m'[b].cap == m[b].cap
  }

  lemma LowKept(m: Mem, m': Mem, t: seq<BlockId>, max: nat)
    requires Low(m, t, max) && SameCaps(m, m')
    ensures Low(m', t, max)
  {
  }

  lemma {:induction false} DropHeadsLow(m: Mem, t: seq<BlockId>, max: nat)
    requires Low(m, t, max)
    ensures var (m1, t1) := DropHeads(m, t); Low(m1, t1, max)
    decreases |t|
  {
    hide DecRef;
    if t != [] && !(t[0] in m && !Full(m[t[0]])) {
      DecRefCaps(m, t[0]);
      LowKept(m, DecRef(m, t[0]), t, max);
      DropHeadsLow(DecRef(m, t[0]), t[1..], max);
    }
  }

  lemma DecRefCaps(m: Mem, b: BlockId)
    ensures SameCaps(m, DecRef(m, b))
  {
  }

  lemma PutCaps(p: Spot, x: seq<Byte>)
    requires CanPut(p, x)
    ensures SameCaps(p.m, Put(p, x).m) && Put(p, x).t == p.t && |Put(p, x).s| <= |p.s| + 1
  {
  }

  lemma RoundLow(p: Spot, r: Round, max: nat)
    requires Low(p.m, p.t, max) && CanRound(p, r) && |r.data| <= max
    ensures var q := OneRound(p, r); Low(q.m, q.t, max) && |q.s| <= |p.s| + |r.chunk|
  {
    hide DropHeads, Put;
    DropHeadsLow(p.m, p.t, max);
    var q := Serve(p, r);
    PutCaps(q, r.chunk);
    LowKept(q.m, Put(q, r.chunk).m, q.t, max);
  }

  lemma {:induction false} GrowLow(p: Spot, rs: seq<Round>, n: nat, cap: nat, max: nat)
    requires Low(p.m, p.t, max) && n <= |rs| && CanGrow(p, rs, n) && Standard(rs, cap) && cap <= max
    ensures var q := Grow(p, rs, n); Low(q.m, q.t, max) && |q.s| <= |p.s| + |Poured(rs, n)|
  {
    hide Low, OneRound, CanRound;
    if n > 0 {
      GrowLow(p, rs, n - 1, cap, max);
      RoundLow(Grow(p, rs, n - 1), rs[n - 1], max);
    }
  }

  lemma {:induction false} GrowRefs(p: Spot, rs: seq<Round>, n: nat)
    requires n <= |rs| && CanGrow(p, rs, n)
    ensures |Grow(p, rs, n).s| <= |p.s| + |Poured(rs, n)|
  {
    if n > 0 {
      GrowRefs(p, rs, n - 1);
    }
  }

  lemma GrownLow(p: Spot, rs: seq<Round>, dry: bool, q: Spot, cap: nat, max: nat)
    requires Grown(p, rs, dry, q) && Standard(rs, cap)
    ensures |q.s| <= |p.s| + |Poured(rs, |rs|)| && (Low(p.m, p.t, max) && cap <= max ==> Low(q.m, q.t, max))
  {
    hide Low, Grow, CanGrow, Poured, DropHeads;
    GrowRefs(p, rs, |rs|);
    if Low(p.m, p.t, max) && cap <= max {
      GrowLow(p, rs, |rs|, cap, max);
      var g := Grow(p, rs, |rs|);
      DropHeadsLow(g.m, g.t, max);
    }
  }

  lemma {:induction false} ShareRefs(m: Mem, s: seq<BlockRef>, i: nat, off: nat, n: nat, t: seq<BlockRef>)
    requires i <= |s|
    ensures |Share(m, s, i, off, n, t).1| <= |t| + (|s| - i)
    decreases |s| - i
  {
    if n > 0 && i < |s| {
      var k := Min(n, Over(s[i].length, off));
      var r := Piece(s[i], off, k);
      ShareRefs(PushMem(m, t, r), s, i + 1, 0, Over(n, Over(s[i].length, off)), PushBack(t, r));
    }
  }

  // ---- Operations ----

  ghost predicate Overdrawn(w: State, i: nat, v: State, n: nat, cap: nat) {
    || |v.holders| != |w.holders| || v.tls != w.tls || !IsBuffer(w, i) || !IsBuffer(v, i) || !HasTls(w) || !HasTls(v)
    || (exists k :: 0 <= k < |w.holders| && k != i && k != w.tls && v.holders[k] != w.holders[k])
    || |RefsAt(v, i)| > |RefsAt(w, i)| + n
    || (exists max: nat :: cap <= max && Low(w.m, Tls(w), max) && !Low(v.m, Tls(v), max))
  }

  /**
   * Buffer `i` has at most `n` refs more, other buffers have the same refs, and no block of more than `cap` bytes has
   * come to the chain.
   */
  ghost predicate Spends(w: State, i: nat, v: State, n: nat, cap: nat) {
    !Overdrawn(w, i, v, n, cap)
  }

  lemma SpendsNone(w: State, i: nat, cap: nat)
    requires IsBuffer(w, i) && HasTls(w)
    ensures Spends(w, i, w, 0, cap)
  {
  }

  lemma SpendsTrans(w: State, i: nat, u: State, a: nat, v: State, b: nat, n: nat, cap: nat)
    requires Spends(w, i, u, a, cap) && Spends(u, i, v, b, cap) && a + b <= n
    ensures Spends(w, i, v, n, cap)
  {
    hide Low;
  }

  lemma SpendsMore(w: State, i: nat, v: State, a: nat, n: nat, cap: nat)
    requires Spends(w, i, v, a, cap) && a <= n
    ensures Spends(w, i, v, n, cap)
  {
  }

  lemma SpendsIs(w: State, i: nat, v: State, n: nat, cap: nat)
    requires Spends(w, i, v, n, cap)
    ensures |v.holders| == |w.holders| && v.tls == w.tls && IsBuffer(w, i) && IsBuffer(v, i) && HasTls(w) && HasTls(v)
    ensures forall k :: 0 <= k < |w.holders| && k != i && k != w.tls ==> v.holders[k] == w.holders[k]
    ensures |RefsAt(v, i)| <= |RefsAt(w, i)| + n
    ensures cap <= 32768 && Low(w.m, Tls(w), 32768) ==> Low(v.m, Tls(v), 32768)
  {
  }

  lemma PourSpends(w: State, i: nat, rs: seq<Round>, dry: bool, v: State, n: nat, cap: nat)
    requires Does(w, Op.Pour(i, rs, dry), v) && Standard(rs, cap) && |Poured(rs, |rs|)| <= n && i != w.tls
    ensures Spends(w, i, v, n, cap)
  {
    hide Low, Grown, Poured, Standard;
    GrownLow(SpotAt(w, i), rs, dry, SpotAt(v, i), cap, cap);
    forall max: nat | cap <= max && Low(w.m, Tls(w), max)
      ensures Low(v.m, Tls(v), max)
    {
      GrownLow(SpotAt(w, i), rs, dry, SpotAt(v, i), cap, max);
    }
  }

  /** Nothing but counters, or nothing but bytes, has changed. */
  lemma RecountedCaps(m: Mem, m': Mem)
    requires Recounted(m, m') || SameShape(m, m')
    ensures SameCaps(m, m')
  {
    if Recounted(m, m') {
      assert forall b :: b in m' ==> m'[b].(nshared := m[b].nshared).cap == m'[b].cap;
    } else {
      assert forall b :: b in m' ==> b in m && m'[b].(data := m[b].data).cap == m'[b].cap;
    }
  }

  /** Only buffer `i` has changed, by at most `n` refs. */
  lemma KeptSpends(w: State, i: nat, v: State, n: nat, cap: nat)
    requires IsBuffer(w, i) && HasTls(w) && i != w.tls && IsBuffer(v, i) && SameCaps(w.m, v.m)
    requires v == w.(m := v.m, holders := w.holders[i := Buffer(RefsAt(v, i))]) && |RefsAt(v, i)| <= |RefsAt(w, i)| + n
    ensures Spends(w, i, v, n, cap)
  {
    hide Low, SameCaps;
    forall max: nat | Low(w.m, Tls(w), max)
      ensures Low(v.m, Tls(v), max)
    {
      LowKept(w.m, v.m, Tls(w), max);
    }
  }

  lemma SharedRefs(m: Mem, s: seq<BlockRef>, p: nat, n: nat, t: seq<BlockRef>, m': Mem, t': seq<BlockRef>)
    requires SharedFrom(m, s, p, n, t, m', t')
    ensures |t'| <= |t| + |s|
  {
    hide Share;
    var k: nat, off: nat :|
      && k <= |s| && (k < |s| ==> off < s[k].length) && p == TotalUpto(s, k) + off
      && Share(m, s, k, off, n, t).0 == m' && Share(m, s, k, off, n, t).1 == t';
    ShareRefs(m, s, k, off, n, t);
  }

  lemma ShareSpends(w: State, j: nat, i: nat, p: nat, n: nat, v: State, cap: nat)
    requires Counted(w) && Does(w, Op.ShareTo(j, i, p, n), v)
    ensures IsBuffer(w, j) && Spends(w, i, v, |RefsAt(w, j)|, cap)
  {
    hide Counted, Recounted, SameCaps, SharedFrom, Spends, Shared, Substr;
    TlsStays2(w, i, j);
    ShareMeans(w, j, i, p, n, v);
    SharedRefs(w.m, RefsAt(w, j), p, n, RefsAt(w, i), v.m, RefsAt(v, i));
    RecountedCaps(w.m, v.m);
    KeptSpends(w, i, v, |RefsAt(w, j)|, cap);
  }

  lemma ShapeSpends(w: State, i: nat, v: State, cap: nat)
    requires IsBuffer(w, i) && HasTls(w) && i != w.tls && v == w.(m := v.m) && SameShape(w.m, v.m)
    ensures Spends(w, i, v, 0, cap)
  {
    hide SameCaps, Spends, SameShape;
    RecountedCaps(w.m, v.m);
    assert w.holders[i := Buffer(RefsAt(w, i))] == w.holders;
    KeptSpends(w, i, v, 0, cap);
  }
}
