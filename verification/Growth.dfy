/**
 Bytes written behind what a block has handed out: they change nothing another buffer sees. Appending
 goes in rounds, each of which fills a part of the first block with room in the thread-local chain.
 */
module Growth {
  import opened Chunks
  import opened Blocks
  import opened RefLists
  import opened RefSteps
  import opened TlsBlocks

  // ---- Memory ----

  /** Bytes written behind what a block has handed out. */
  function Write(m: Mem, b: BlockId, x: seq<Byte>): Mem
    requires b in m && m[b].size + |x| <= |m[b].data|
  {
    m[b := m[b].(data := m[b].data[..m[b].size] + x + m[b].data[m[b].size + |x|..])]
  }

  /** The next `n` bytes of a block are handed out. */
  function HandOut(m: Mem, b: BlockId, n: nat): Mem
    requires b in m
  {
    m[b := m[b].(size := m[b].size + n)]
  }

  lemma WriteEffect(m: Mem, b: BlockId, x: seq<Byte>)
    requires MemOk(m) && b in m && m[b].size + |x| <= m[b].cap
    ensures Effect(m, multiset{}, Write(m, b, x), multiset{})
  {
    var y := Write(m, b, x)[b];
    assert y.data[..m[b].size] == m[b].data[..m[b].size];
  }

  lemma HandOutEffect(m: Mem, b: BlockId, n: nat)
    requires MemOk(m) && b in m && m[b].size + n <= m[b].cap
    ensures Effect(m, multiset{}, HandOut(m, b, n), multiset{})
  {
  }

  /** Both at once. */
  function Fill(m: Mem, b: BlockId, x: seq<Byte>): Mem
    requires b in m && m[b].size + |x| <= |m[b].data|
  {
    HandOut(Write(m, b, x), b, |x|)
  }

  lemma FillEffect(m: Mem, b: BlockId, x: seq<Byte>)
    requires MemOk(m) && b in m && m[b].size + |x| <= m[b].cap
    ensures Effect(m, multiset{}, Fill(m, b, x), multiset{})
  {
    WriteEffect(m, b, x);
    HandOutEffect(Write(m, b, x), b, |x|);
    EffectTrans(m, multiset{}, Write(m, b, x), multiset{}, Fill(m, b, x), multiset{});
  }

  lemma FillSlice(m: Mem, b: BlockId, x: seq<Byte>)
    requires MemOk(m) && b in m && m[b].size + |x| <= m[b].cap && x != []
    ensures var r := BlockRef(m[b].size, |x|, b); RefOk(Fill(m, b, x), r) && Eq(Slice(Fill(m, b, x), r), x)
  {
    var d := Fill(m, b, x)[b].data;
    var o := m[b].size;
    SubIs(d, o, |x|);
    assert d[o..o + |x|] == x;
  }

  // ---- A buffer beside other holders ----

  ghost predicate NotReady(m: Mem, s: seq<BlockRef>, c: multiset<BlockId>) {
    !Sound(m, s) || !Covers(m, Claims(s) + c)
  }

  /** The refs of a buffer and the further claims `c` are covered. */
  ghost predicate Ready(m: Mem, s: seq<BlockRef>, c: multiset<BlockId>) {
    !NotReady(m, s, c)
  }

  ghost predicate NotAppended(m0: Mem, s0: seq<BlockRef>, c0: multiset<BlockId>, m: Mem, s: seq<BlockRef>,
    c: multiset<BlockId>, x: seq<Byte>)
  {
    || !Ready(m, s, c) || !Effect(m0, Claims(s0) + c0, m, Claims(s) + c) || Differ(Bytes(m, s), Bytes(m0, s0) + x)
  }

  /** The bytes `x` were appended to a buffer by a holder of further claims. */
  ghost predicate Appended(m0: Mem, s0: seq<BlockRef>, c0: multiset<BlockId>, m: Mem, s: seq<BlockRef>,
    c: multiset<BlockId>, x: seq<Byte>)
  {
    !NotAppended(m0, s0, c0, m, s, c, x)
  }

  lemma NothingAppended(m: Mem, s: seq<BlockRef>, c: multiset<BlockId>)
    requires Ready(m, s, c)
    ensures Appended(m, s, c, m, s, c, [])
  {
    EffectRefl(m, Claims(s) + c);
    Nil(Bytes(m, s));
  }

  lemma AppendedTrans(m0: Mem, s0: seq<BlockRef>, c0: multiset<BlockId>, m1: Mem, s1: seq<BlockRef>,
    c1: multiset<BlockId>,
    x: seq<Byte>, m2: Mem, s2: seq<BlockRef>, c2: multiset<BlockId>, y: seq<Byte>)
    requires Appended(m0, s0, c0, m1, s1, c1, x) && Appended(m1, s1, c1, m2, s2, c2, y)
    ensures Appended(m0, s0, c0, m2, s2, c2, x + y)
  {
    EffectTrans(m0, Claims(s0) + c0, m1, Claims(s1) + c1, m2, Claims(s2) + c2);
    Assoc(Bytes(m0, s0), x, y);
  }

  lemma AppendedReady(m0: Mem, s0: seq<BlockRef>, c0: multiset<BlockId>, m: Mem, s: seq<BlockRef>, c: multiset<BlockId>,
    x: seq<Byte>)
    requires Appended(m0, s0, c0, m, s, c, x)
    ensures Ready(m, s, c)
  {
  }

  lemma ReadyIs(m: Mem, s: seq<BlockRef>, c: multiset<BlockId>)
    requires Ready(m, s, c)
    ensures Held(m, s) && TlsOk(m, c)
  {
    CoversLess(m, Claims(s), c);
    EffectRefl(m, c);
  }

  /** The other holder acts. */
  lemma BesideStep(m: Mem, s: seq<BlockRef>, c: multiset<BlockId>, m1: Mem, c1: multiset<BlockId>)
    requires Ready(m, s, c) && TlsStep(m, c, m1, c1)
    ensures Appended(m, s, c, m1, s, c1, [])
  {
    assert Claims(s) + c == c + Claims(s) && Claims(s) + c1 == c1 + Claims(s);
    BystanderBytes(m, c, m1, c1, s);
    EffectFrame(m, c, m1, c1, Claims(s));
    Nil(Bytes(m1, s));
  }

  /** Bytes are written to a block of the other holder and a ref to them is pushed. */
  lemma FillStep(m: Mem, s: seq<BlockRef>, c: multiset<BlockId>, b: BlockId, x: seq<Byte>)
    requires Ready(m, s, c) && b in c && b in m && x != [] && m[b].size + |x| <= m[b].cap
    ensures |m[b].data| == m[b].cap
    ensures var r := BlockRef(m[b].size, |x|, b); var m1 := Fill(m, b, x);
      Appended(m, s, c, PushMem(m1, s, r), PushBack(s, r), c, x)
  {
    var r, m1 := BlockRef(m[b].size, |x|, b), Fill(m, b, x);
    FillBeside(m, s, c, b, x);
    PushStepBeside(m1, s, c, r);
    EffectTrans(m, Claims(s) + c, m1, Claims(s) + c, PushMem(m1, s, r), Claims(PushBack(s, r)) + c);
  }

  lemma FillBeside(m: Mem, s: seq<BlockRef>, c: multiset<BlockId>, b: BlockId, x: seq<Byte>)
    requires Ready(m, s, c) && b in m && x != [] && m[b].size + |x| <= m[b].cap
    ensures |m[b].data| == m[b].cap
    ensures var r := BlockRef(m[b].size, |x|, b); var m1 := Fill(m, b, x);
      && Ready(m1, s, c) && RefOk(m1, r) && Eq(Slice(m1, r), x) && Eq(Bytes(m1, s), Bytes(m, s))
      && Effect(m, Claims(s) + c, m1, Claims(s) + c)
  {
    var m1, d := Fill(m, b, x), Claims(s) + c;
    FillEffect(m, b, x);
    FillSlice(m, b, x);
    EffectFrame(m, multiset{}, m1, multiset{}, d);
    assert multiset{} + d == d;
    CoversLess(m, Claims(s), c);
    assert multiset{} + Claims(s) == Claims(s);
    BystanderBytes(m, multiset{}, m1, multiset{}, s);
  }

  lemma PushStepBeside(m: Mem, s: seq<BlockRef>, c: multiset<BlockId>, r: BlockRef)
    requires Ready(m, s, c) && RefOk(m, r)
    ensures var m1, s1 := PushMem(m, s, r), PushBack(s, r);
      Ready(m1, s1, c) && Effect(m, Claims(s) + c, m1, Claims(s1) + c) && Eq(Bytes(m1, s1), Bytes(m, s) + Slice(m, r))
  {
    var m1, s1 := PushMem(m, s, r), PushBack(s, r);
    PushEffect(m, s, r);
    EffectFrame(m, Claims(s), m1, Claims(s1), c);
    CoversLess(m, Claims(s), c);
    PushedBytes(m, s, r);
  }

  lemma AppendedBeside(m0: Mem, s0: seq<BlockRef>, c0: multiset<BlockId>, m1: Mem, s: seq<BlockRef>,
    c1: multiset<BlockId>,
    x: seq<Byte>, m2: Mem, c2: multiset<BlockId>)
    requires Appended(m0, s0, c0, m1, s, c1, x) && TlsStep(m1, c1, m2, c2)
    ensures Appended(m0, s0, c0, m2, s, c2, x) && Ready(m2, s, c2)
  {
    BesideStep(m1, s, c1, m2, c2);
    AppendedTrans(m0, s0, c0, m1, s, c1, x, m2, s, c2, []);
    Nil(x);
  }

  lemma RoomIs(m: Mem, s: seq<BlockRef>, c: multiset<BlockId>, b: BlockId)
    requires Ready(m, s, c) && b in m && !Full(m[b])
    ensures m[b].size < m[b].cap == |m[b].data| < BLOCK_LIMIT && b != NULL
  {
  }

  /** Handing out before or after the ref is pushed makes no difference. */
  lemma HandOutLast(m: Mem, b: BlockId, x: seq<Byte>, s: seq<BlockRef>, r: BlockRef)
    requires b in m && m[b].size + |x| <= |m[b].data| && r.block == b
    ensures var w := Write(m, b, x);
      b in w && b in PushMem(w, s, r) && HandOut(PushMem(w, s, r), b, |x|) == PushMem(Fill(m, b, x), s, r)
  {
  }

  // ---- Rounds ----

  /** Bytes for one block, and the block that malloc gives if none in the chain has room. */
  datatype Round = Round(block: BlockId, data: seq<Byte>, chunk: seq<Byte>)

  /** Memory, the thread-local chain and the refs of a buffer. */
  datatype Spot = Spot(m: Mem, t: seq<BlockId>, s: seq<BlockRef>)

  /** There is a block with room, or a new one. */
  predicate CanServe(p: Spot, r: Round) {
    var (m1, t1) := DropHeads(p.m, p.t);
    t1 == [] ==> r.block !in m1 && r.block != NULL && 0 < |r.data| < BLOCK_LIMIT
  }

  /** share_tls_block */
  function Serve(p: Spot, r: Round): Spot {
    var (m1, t1) := DropHeads(p.m, p.t);
    if t1 != [] then p.(m := m1, t := t1) else p.(m := Create(m1, r.block, r.data), t := [r.block])
  }

  predicate CanPut(p: Spot, x: seq<Byte>) {
    p.t != [] && p.t[0] in p.m && x != []
    && p.m[p.t[0]].size + |x| <= p.m[p.t[0]].cap == |p.m[p.t[0]].data|
  }

  /** The ref to the next `n` bytes of the first block. */
  function NextRef(p: Spot, n: nat): BlockRef
    requires p.t != [] && p.t[0] in p.m
  {
    BlockRef(p.m[p.t[0]].size, n, p.t[0])
  }

  /** Bytes are written to the first block and a ref to them is pushed. */
  function Put(p: Spot, x: seq<Byte>): Spot
    requires CanPut(p, x)
  {
    var r := NextRef(p, |x|);
    p.(m := PushMem(Fill(p.m, p.t[0], x), p.s, r), s := PushBack(p.s, r))
  }

  predicate CanRound(p: Spot, r: Round) {
    CanServe(p, r) && CanPut(Serve(p, r), r.chunk)
  }

  function OneRound(p: Spot, r: Round): Spot {
    if CanRound(p, r) then Put(Serve(p, r), r.chunk) else p
  }

  function Grow(p: Spot, rs: seq<Round>, n: nat): Spot
    requires n <= |rs|
  {
    if n == 0 then p else OneRound(Grow(p, rs, n - 1), rs[n - 1])
  }

  predicate CanGrow(p: Spot, rs: seq<Round>, n: nat)
    requires n <= |rs|
  {
    n == 0 || (CanGrow(p, rs, n - 1) && CanRound(Grow(p, rs, n - 1), rs[n - 1]))
  }

  /** What the first `n` rounds put. */
  function Poured(rs: seq<Round>, n: nat): seq<Byte>
    requires n <= |rs|
  {
    if n == 0 then [] else Poured(rs, n - 1) + rs[n - 1].chunk
  }

  /** The blocks that malloc gives are of the default size. */
  predicate Standard(rs: seq<Round>, cap: nat) {
    forall k :: 0 <= k < |rs| ==> |rs[k].data| == cap
  }

  lemma StandardOn(rs: seq<Round>, r: Round, cap: nat)
    requires Standard(rs, cap) && |r.data| == cap
    ensures Standard(rs + [r], cap)
  {
  }

  /** No block in the chain has room and malloc gives none. */
  function Starve(p: Spot): Spot {
    var (m1, t1) := DropHeads(p.m, p.t);
    p.(m := m1, t := t1)
  }

  ghost predicate NotReadyAt(p: Spot) {
    !Ready(p.m, p.s, multiset(p.t))
  }

  /** The refs and the chain are covered. */
  ghost predicate ReadyAt(p: Spot) {
    !NotReadyAt(p)
  }

  ghost predicate AppendedAt(p: Spot, p': Spot, x: seq<Byte>) {
    Appended(p.m, p.s, multiset(p.t), p'.m, p'.s, multiset(p'.t), x)
  }

  lemma {:induction false} DropHeadsStep(m: Mem, t: seq<BlockId>)
    requires TlsOk(m, multiset(t))
    ensures var (m1, t1) := DropHeads(m, t);
      && TlsStep(m, multiset(t), m1, multiset(t1)) && multiset(t1) <= multiset(t)
      && (t1 != [] ==> t1[0] in m1 && !Full(m1[t1[0]]))
    decreases |t|
  {
    if t != [] && !(t[0] in m && !Full(m[t[0]])) {
      var m1 := DecRef(m, t[0]);
      HeadClaim(t);
      TlsDrop(m, multiset(t[1..]), t[0]);
      TlsStays(m, multiset(t), m1, multiset(t[1..]));
      DropHeadsStep(m1, t[1..]);
      var (m2, t2) := DropHeads(m1, t[1..]);
      TlsTrans(m, multiset(t), m1, multiset(t[1..]), m2, multiset(t2));
    }
  }

  lemma ServeStep(p: Spot, r: Round)
    requires TlsOk(p.m, multiset(p.t)) && CanServe(p, r)
    ensures TlsStep(p.m, multiset(p.t), Serve(p, r).m, multiset(Serve(p, r).t))
  {
    hide TlsStep, DropHeads;
    DropHeadsStep(p.m, p.t);
    var (m1, t1) := DropHeads(p.m, p.t);
    if t1 == [] {
      TlsStays(p.m, multiset(p.t), m1, multiset([]));
      TlsCreate(m1, multiset([]), r.block, r.data);
      PushClaim([], r.block);
      assert [r.block] + [] == [r.block];
      TlsTrans(p.m, multiset(p.t), m1, multiset([]), Serve(p, r).m, multiset([r.block]));
    }
  }

  /** One round adds its bytes. */
  lemma RoundAppends(p: Spot, r: Round)
    requires ReadyAt(p) && CanRound(p, r)
    ensures AppendedAt(p, OneRound(p, r), r.chunk) && ReadyAt(OneRound(p, r))
  {
    hide Ready, Appended, TlsStep, Serve, CanServe, Fill, PushMem, PushBack, TlsOk;
    ReadyIs(p.m, p.s, multiset(p.t));
    ServeStep(p, r);
    var q := Serve(p, r);
    ServeRefs(p, r);
    BesideStep(p.m, p.s, multiset(p.t), q.m, multiset(q.t));
    AppendedReady(p.m, p.s, multiset(p.t), q.m, q.s, multiset(q.t), []);
    HeadClaim(q.t);
    FillStep(q.m, q.s, multiset(q.t), q.t[0], r.chunk);
    var e := OneRound(p, r);
    AppendedTrans(p.m, p.s, multiset(p.t), q.m, q.s, multiset(q.t), [], e.m, e.s, multiset(e.t), r.chunk);
    AppendedReady(q.m, q.s, multiset(q.t), e.m, e.s, multiset(e.t), r.chunk);
    assert [] + r.chunk == r.chunk;
  }

  lemma ServeRefs(p: Spot, r: Round)
    ensures Serve(p, r).s == p.s
  {
  }

  /** Any number of rounds add what they put. */
  lemma {:induction false} GrowAppends(p: Spot, rs: seq<Round>, n: nat)
    requires ReadyAt(p) && n <= |rs| && CanGrow(p, rs, n)
    ensures AppendedAt(p, Grow(p, rs, n), Poured(rs, n)) && ReadyAt(Grow(p, rs, n))
  {
    hide ReadyAt, OneRound, CanRound, Appended;
    if n == 0 {
      StillAppends(p);
    } else {
      var q, e := Grow(p, rs, n - 1), Grow(p, rs, n);
      GrowAppends(p, rs, n - 1);
      RoundAppends(q, rs[n - 1]);
      AppendedTrans(p.m, p.s, multiset(p.t), q.m, q.s, multiset(q.t), Poured(rs, n - 1),
                    e.m, e.s, multiset(e.t), rs[n - 1].chunk);
    }
  }

  lemma StillAppends(p: Spot)
    requires ReadyAt(p)
    ensures AppendedAt(p, p, [])
  {
    NothingAppended(p.m, p.s, multiset(p.t));
  }

  lemma StarveAppends(p: Spot)
    requires ReadyAt(p)
    ensures AppendedAt(p, Starve(p), []) && ReadyAt(Starve(p))
  {
    hide Ready, Appended, TlsStep, TlsOk, DropHeads;
    ReadyIs(p.m, p.s, multiset(p.t));
    DropHeadsStep(p.m, p.t);
    BesideStep(p.m, p.s, multiset(p.t), Starve(p).m, multiset(Starve(p).t));
    AppendedReady(p.m, p.s, multiset(p.t), Starve(p).m, p.s, multiset(Starve(p).t), []);
  }

  // ---- What the rounds leave alone ----

  /** Blocks outside the links `c` are as they were, and outside the links `c'` still. */
  ghost predicate Spares(m: Mem, c: multiset<BlockId>, m': Mem, c': multiset<BlockId>) {
    forall b :: b in m && b !in c ==> b !in c' && b in m' && m'[b] == m[b]
  }

  /** No block is linked twice. */
  ghost predicate Single(c: multiset<BlockId>) {
    forall b: BlockId :: c[b] <= 1
  }

  lemma SparesTrans(m0: Mem, c0: multiset<BlockId>, m1: Mem, c1: multiset<BlockId>, m2: Mem, c2: multiset<BlockId>)
    requires Spares(m0, c0, m1, c1) && Spares(m1, c1, m2, c2)
    ensures Spares(m0, c0, m2, c2)
  {
  }

  lemma SingleLess(c: multiset<BlockId>, d: multiset<BlockId>)
    requires Single(d) && c <= d
    ensures Single(c)
  {
    forall b: BlockId
      ensures c[b] <= 1
    {
      assert d[b] <= 1;
    }
  }

  lemma {:induction false} DropHeadsSpares(m: Mem, t: seq<BlockId>)
    ensures var (m1, t1) := DropHeads(m, t); Spares(m, multiset(t), m1, multiset(t1)) && multiset(t1) <= multiset(t)
    decreases |t|
  {
    if t != [] && !(t[0] in m && !Full(m[t[0]])) {
      HeadClaim(t);
      DropHeadsSpares(DecRef(m, t[0]), t[1..]);
    }
  }

  lemma ServeSpares(p: Spot, r: Round)
    requires CanServe(p, r)
    ensures Spares(p.m, multiset(p.t), Serve(p, r).m, multiset(Serve(p, r).t))
    ensures Single(multiset(p.t)) ==> Single(multiset(Serve(p, r).t))
  {
    hide DropHeads;
    DropHeadsSpares(p.m, p.t);
    var (m1, t1) := DropHeads(p.m, p.t);
    if t1 != [] {
      if Single(multiset(p.t)) {
        SingleLess(multiset(t1), multiset(p.t));
      }
    }
  }

  lemma PutSpares(p: Spot, x: seq<Byte>)
    requires CanPut(p, x)
    ensures Spares(p.m, multiset(p.t), Put(p, x).m, multiset(p.t))
  {
    HeadClaim(p.t);
  }

  lemma {:induction false} GrowSpares(p: Spot, rs: seq<Round>, n: nat)
    requires n <= |rs| && CanGrow(p, rs, n)
    ensures var e := Grow(p, rs, n);
      Spares(p.m, multiset(p.t), e.m, multiset(e.t)) && (Single(multiset(p.t)) ==> Single(multiset(e.t)))
  {
    hide Spares, Single, Serve, Put, CanServe, CanPut;
    if n > 0 {
      var q, r := Grow(p, rs, n - 1), rs[n - 1];
      GrowSpares(p, rs, n - 1);
      ServeSpares(q, r);
      PutSpares(Serve(q, r), r.chunk);
      PutLinks(Serve(q, r), r.chunk);
      var u, e := Serve(q, r), OneRound(q, r);
      SparesTrans(q.m, multiset(q.t), u.m, multiset(u.t), e.m, multiset(e.t));
      SparesTrans(p.m, multiset(p.t), q.m, multiset(q.t), e.m, multiset(e.t));
    } else {
      SparesSelf(p.m, multiset(p.t));
    }
  }

  lemma PutLinks(p: Spot, x: seq<Byte>)
    requires CanPut(p, x)
    ensures Put(p, x).t == p.t
  {
  }

  lemma SparesSelf(m: Mem, c: multiset<BlockId>)
    ensures Spares(m, c, m, c)
  {
  }

  // ---- Appending as a run of rounds ----

  ghost predicate NotGrown(p: Spot, rs: seq<Round>, dry: bool, p': Spot) {
    !CanGrow(p, rs, |rs|) || p' != if dry then Starve(Grow(p, rs, |rs|)) else Grow(p, rs, |rs|)
  }

  /** The rounds `rs` were gone through; `dry` says that there was no block for a further one. */
  ghost predicate Grown(p: Spot, rs: seq<Round>, dry: bool, p': Spot) {
    !NotGrown(p, rs, dry, p')
  }

  lemma GrownStart(p: Spot)
    ensures Grown(p, [], false, p) && Poured([], 0) == []
  {
  }

  lemma {:induction false} GrowSame(p: Spot, rs: seq<Round>, us: seq<Round>, n: nat)
    requires n <= |rs| && n <= |us| && forall i :: 0 <= i < n ==> rs[i] == us[i]
    ensures Grow(p, rs, n) == Grow(p, us, n) && CanGrow(p, rs, n) == CanGrow(p, us, n) && Poured(rs, n) == Poured(us, n)
  {
    hide OneRound, CanRound;
    if n > 0 {
      GrowSame(p, rs, us, n - 1);
    }
  }

  lemma GrownOn(p: Spot, rs: seq<Round>, q: Spot, r: Round)
    requires Grown(p, rs, false, q) && CanRound(q, r)
    ensures Grown(p, rs + [r], false, OneRound(q, r))
    ensures Poured(rs + [r], |rs| + 1) == Poured(rs, |rs|) + r.chunk
  {
    hide OneRound, CanRound;
    GrowSame(p, rs, rs + [r], |rs|);
  }

  lemma GrownDry(p: Spot, rs: seq<Round>, q: Spot)
    requires Grown(p, rs, false, q)
    ensures Grown(p, rs, true, Starve(q))
  {
  }

  /** What was put is what was appended. */
  lemma GrownAppends(p: Spot, rs: seq<Round>, dry: bool, p': Spot)
    requires ReadyAt(p) && Grown(p, rs, dry, p')
    ensures AppendedAt(p, p', Poured(rs, |rs|)) && ReadyAt(p')
  {
    hide ReadyAt, Appended, Starve, Grow;
    var q, x := Grow(p, rs, |rs|), Poured(rs, |rs|);
    GrowAppends(p, rs, |rs|);
    if dry {
      StarveAppends(q);
      AppendedTrans(p.m, p.s, multiset(p.t), q.m, q.s, multiset(q.t), x, p'.m, p'.s, multiset(p'.t), []);
      assert x + [] == x;
    }
  }

  /** Appending leaves blocks outside the thread-local chain alone and links no block twice. */
  lemma GrownSpares(p: Spot, rs: seq<Round>, dry: bool, p': Spot)
    requires Grown(p, rs, dry, p')
    ensures Spares(p.m, multiset(p.t), p'.m, multiset(p'.t)) && (Single(multiset(p.t)) ==> Single(multiset(p'.t)))
  {
    hide Spares, Single, Grow, DropHeads;
    var q := Grow(p, rs, |rs|);
    GrowSpares(p, rs, |rs|);
    if dry {
      DropHeadsSpares(q.m, q.t);
      SparesTrans(p.m, multiset(p.t), q.m, multiset(q.t), p'.m, multiset(p'.t));
      if Single(multiset(q.t)) {
        SingleLess(multiset(p'.t), multiset(q.t));
      }
    }
  }

  /** The block with room that a round starts with, seen before the round. */
  lemma {:induction false} DropHeadsHead(m: Mem, t: seq<BlockId>)
    requires TlsOk(m, multiset(t))
    ensures var (m1, t1) := DropHeads(m, t);
      t1 == Roomed(m, t) && (t1 != [] ==> t1[0] in m && t1[0] in m1 && m1[t1[0]] == m[t1[0]] && !Full(m[t1[0]]))
    decreases |t|
  {
    if t != [] && !(t[0] in m && !Full(m[t[0]])) {
      HeadClaim(t);
      TlsLive(m, multiset(t), t[0]);
      TlsDrop(m, multiset(t[1..]), t[0]);
      TlsStays(m, multiset(t), DecRef(m, t[0]), multiset(t[1..]));
      RoomedDrop(m, t);
      DropHeadsHead(DecRef(m, t[0]), t[1..]);
    }
  }
}
