/**
 Appending to an IOBuf. New bytes are written behind the bytes a block has handed out, so that they
 change nothing another buffer sees.
 */
module Appends {
  import opened Chunks
  import opened Blocks
  import opened RefLists
  import opened RefSteps
  import opened RefRuns
  import opened RefLoops
  import opened RefQueues
  import opened IOBufs
  import opened TlsBlocks
  import opened Growth

  /** Where an append to a buffer stands. */
  ghost function SpotOf(buf: IOBuf, h: Heap): Spot
    reads buf.q, buf.q.ring, h
    requires buf.q.Valid()
  {
    Spot(h.m, h.tls, buf.q.Refs())
  }

  /** What appending asks for. */
  ghost predicate CanAppend(buf: IOBuf, h: Heap)
    reads buf.q, buf.q.ring, h
  {
    buf.q.Valid() && ReadyAt(SpotOf(buf, h)) && h.num == |h.tls| && 0 < h.cap < BLOCK_LIMIT
  }

  // ---- Rounds ----

  lemma PutRoom(p: Spot, x: seq<Byte>)
    requires ReadyAt(p) && CanPut(p, x)
    ensures p.t[0] != NULL && p.m[p.t[0]].size + |x| < BLOCK_LIMIT
  {
  }

  /** One round of the append loops: bytes are copied to the first block, a ref is pushed, the block grows. */
  method AppendChunk(buf: IOBuf, h: Heap, x: seq<Byte>)
    requires CanAppend(buf, h) && CanPut(SpotOf(buf, h), x)
    modifies buf.q, buf.q.ring, h`m
    ensures buf.q.Valid() && (buf.q.ring == old(buf.q.ring) || fresh(buf.q.ring))
    ensures SpotOf(buf, h) == Put(old(SpotOf(buf, h)), x)
  {
    hide ReadyAt, PushMem, PushBack, RefQueue.Decode, Fill;
    PutRoom(SpotOf(buf, h), x);
    var b := h.tls[0];
    var r := BlockRef(h.m[b].size, |x|, b);
    HandOutLast(h.m, b, x, buf.q.Refs(), r);
    h.m := Write(h.m, b, x);
    buf.PushBackRef(r, h);
    h.m := HandOut(h.m, b, |x|);
  }

  /** The same for one byte, with the block grown before the ref is pushed. */
  method AppendByte(buf: IOBuf, h: Heap, x: Byte)
    requires CanAppend(buf, h) && CanPut(SpotOf(buf, h), [x])
    modifies buf.q, buf.q.ring, h`m
    ensures buf.q.Valid() && (buf.q.ring == old(buf.q.ring) || fresh(buf.q.ring))
    ensures SpotOf(buf, h) == Put(old(SpotOf(buf, h)), [x])
  {
    hide ReadyAt, PushMem, PushBack, RefQueue.Decode;
    PutRoom(SpotOf(buf, h), [x]);
    var b := h.tls[0];
    var r := BlockRef(h.m[b].size, 1, b);
    h.m := Write(h.m, b, [x]);
    h.m := HandOut(h.m, b, 1);
    buf.PushBackRef(r, h);
  }

  /** share_tls_block in the middle of an append. */
  method NextBlock(buf: IOBuf, h: Heap) returns (b: BlockId, ghost data: seq<Byte>)
    requires CanAppend(buf, h)
    modifies h
    ensures CanAppend(buf, h) && buf.q.Refs() == old(buf.q.Refs())
    ensures h.fails == old(h.fails) + if b == NULL then 1 else 0
    ensures b == NULL ==> h.tls == [] && SpotOf(buf, h) == Starve(old(SpotOf(buf, h)))
    ensures b != NULL ==> |h.tls| > 0 && h.tls[0] == b && b in h.m && h.m[b].size < h.m[b].cap == |h.m[b].data|
    ensures b != NULL ==> |data| == h.cap
    ensures b != NULL ==>
      forall x :: CanServe(old(SpotOf(buf, h)), Round(b, data, x))
        && SpotOf(buf, h) == Serve(old(SpotOf(buf, h)), Round(b, data, x))
  {
    hide Ready, RefQueue.Decode, TlsStep, TlsOk, Full, DropHeads;
    ghost var p := SpotOf(buf, h);
    ReadyIs(p.m, p.s, multiset(p.t));
    b, data := ShareTlsBlock(h);
    ghost var q := SpotOf(buf, h);
    BesideStep(p.m, p.s, multiset(p.t), q.m, multiset(q.t));
    AppendedReady(p.m, p.s, multiset(p.t), q.m, q.s, multiset(q.t), []);
    if b != NULL {
      RoomIs(q.m, q.s, multiset(q.t), b);
    }
  }

  method PushBackByte(buf: IOBuf, x: Byte, h: Heap) returns (rc: int, ghost rs: seq<Round>)
    requires CanAppend(buf, h)
    modifies buf.q, buf.q.ring, h
    ensures CanAppend(buf, h) && (buf.q.ring == old(buf.q.ring) || fresh(buf.q.ring))
    ensures h.fails == old(h.fails) + if rc == -1 then 1 else 0
    ensures rc in {0, -1} && (rc == -1 ==> h.tls == [])
    ensures Grown(old(SpotOf(buf, h)), rs, rc == -1, SpotOf(buf, h)) && Poured(rs, |rs|) == if rc == 0 then [x] else []
    ensures Standard(rs, h.cap)
  {
    hide ReadyAt, Grown, Serve, CanServe, Put, Starve, RefQueue.Decode;
    ghost var p := SpotOf(buf, h);
    rs := [];
    GrownStart(p);
    var b;
    ghost var data;
    b, data := NextBlock(buf, h);
    if b == NULL {
      GrownDry(p, rs, p);
      return -1, rs;
    }
    ghost var r := Round(b, data, [x]);
    AppendByte(buf, h, x);
    GrownOn(p, rs, p, r);
    rs := rs + [r];
    GrownAppends(p, rs, false, SpotOf(buf, h));
    rc := 0;
  }

  ghost predicate NotPouring(p: Spot, rs: seq<Round>, q: Spot, x: seq<Byte>) {
    !Grown(p, rs, false, q) || !ReadyAt(q) || Differ(Poured(rs, |rs|), x)
  }

  /** The bytes `x` were put so far. */
  ghost predicate Pouring(p: Spot, rs: seq<Round>, q: Spot, x: seq<Byte>) {
    !NotPouring(p, rs, q, x)
  }

  lemma PouringStart(p: Spot)
    requires ReadyAt(p)
    ensures Pouring(p, [], p, [])
  {
    GrownStart(p);
  }

  lemma PouringIs(p: Spot, rs: seq<Round>, q: Spot, x: seq<Byte>)
    requires Pouring(p, rs, q, x)
    ensures Grown(p, rs, false, q) && ReadyAt(q) && Poured(rs, |rs|) == x
  {
  }

  lemma PouringOn(p: Spot, rs: seq<Round>, q: Spot, x: seq<Byte>, r: Round, y: seq<Byte>)
    requires Pouring(p, rs, q, x) && CanServe(q, r) && CanPut(Serve(q, r), r.chunk) && Eq(x + r.chunk, y)
    ensures Pouring(p, rs + [r], Put(Serve(q, r), r.chunk), y)
  {
    GrownOn(p, rs, q, r);
    RoundAppends(q, r);
  }

  lemma PouringDry(p: Spot, rs: seq<Round>, q: Spot, x: seq<Byte>)
    requires Pouring(p, rs, q, x)
    ensures Grown(p, rs, true, Starve(q)) && Poured(rs, |rs|) == x
  {
    GrownDry(p, rs, q);
  }

  lemma PutIs(p: Spot, x: seq<Byte>)
    requires CanPut(p, x)
    ensures Put(p, x).t == p.t
  {
  }

  /** One round of a loop: a block, and as much as fits of what is left. */
  method Pour(buf: IOBuf, h: Heap, b: BlockId, x: seq<Byte>, ghost p: Spot, ghost rs: seq<Round>, ghost q: Spot,
    ghost r: Round,
    ghost y: seq<Byte>, ghost z: seq<Byte>)
    requires CanAppend(buf, h) && |h.tls| > 0 && h.tls[0] == b && b in h.m && h.m[b].size < h.m[b].cap == |h.m[b].data|
    requires 0 < |x| <= h.m[b].cap - h.m[b].size
    requires Pouring(p, rs, q, y) && CanServe(q, r) && SpotOf(buf, h) == Serve(q, r) && r.chunk == x && Eq(y + x, z)
    modifies buf.q, buf.q.ring, h`m
    ensures CanAppend(buf, h) && (buf.q.ring == old(buf.q.ring) || fresh(buf.q.ring))
    ensures Pouring(p, rs + [r], SpotOf(buf, h), z)
  {
    hide ReadyAt, Grown, Serve, CanServe, Put, RefQueue.Decode, Pouring;
    PouringOn(p, rs, q, y, r, z);
    PutIs(SpotOf(buf, h), x);
    AppendChunk(buf, h, x);
    PouringIs(p, rs + [r], SpotOf(buf, h), z);
  }

  /** append of plain memory; `done` bytes were appended when malloc failed. */
  method AppendBytes(buf: IOBuf, data: seq<Byte>, h: Heap) returns (rc: int, ghost done: nat, ghost rs: seq<Round>)
    requires CanAppend(buf, h)
    modifies buf.q, buf.q.ring, h
    ensures CanAppend(buf, h) && (buf.q.ring == old(buf.q.ring) || fresh(buf.q.ring))
    ensures h.fails == old(h.fails) + if rc == -1 then 1 else 0
    ensures done <= |data| && rc == (if done == |data| then 0 else -1) && (rc == -1 ==> h.tls == [])
    ensures Grown(old(SpotOf(buf, h)), rs, rc == -1, SpotOf(buf, h)) && Poured(rs, |rs|) == data[..done]
    ensures Standard(rs, h.cap)
  {
    hide ReadyAt, Grown, Serve, CanServe, Put, Starve, RefQueue.Decode, Pouring;
    TakeEnds(data);
    if |data| == 1 {
      TakeOne(data);
      rc, rs := PushBackByte(buf, data[0], h);
      done := if rc == 0 then 1 else 0;
      return;
    }
    ghost var p := SpotOf(buf, h);
    PouringStart(p);
    rs := [];
    var total: nat := 0;
    while total < |data|
      invariant h.fails == old(h.fails)
      invariant total <= |data| && CanAppend(buf, h) && (buf.q.ring == old(buf.q.ring) || fresh(buf.q.ring))
      invariant Pouring(p, rs, SpotOf(buf, h), data[..total]) && Standard(rs, h.cap)
    {
      ghost var q := SpotOf(buf, h);
      var b;
      ghost var junk;
      b, junk := NextBlock(buf, h);
      if b == NULL {
        PouringDry(p, rs, q, data[..total]);
        return -1, total, rs;
      }
      var space := h.m[b].cap - h.m[b].size;
      var nc := if |data| - total < space then |data| - total else space;
      var x := data[total..total + nc];
      TakeNext(data, total, total + nc);
      Pour(buf, h, b, x, p, rs, q, Round(b, junk, x), data[..total], data[..total + nc]);
      rs := rs + [Round(b, junk, x)];
      total := total + nc;
    }
    PouringIs(p, rs, SpotOf(buf, h), data[..total]);
    return 0, total, rs;
  }

  // ---- resize ----

  function Rep(x: Byte, n: nat): seq<Byte> {
    seq(n, _ => x)
  }

  lemma RepJoin(x: Byte, n: nat, k: nat)
    ensures Rep(x, 0) == [] && Rep(x, n) + Rep(x, k) == Rep(x, n + k) && |Rep(x, k)| == k
  {
  }

  /** resize to a length that is not less: bytes `x` are appended. */
  method Extend(buf: IOBuf, count: nat, x: Byte, h: Heap) returns (rc: int, ghost done: nat, ghost rs: seq<Round>)
    requires CanAppend(buf, h)
    modifies buf.q, buf.q.ring, h
    ensures CanAppend(buf, h) && (buf.q.ring == old(buf.q.ring) || fresh(buf.q.ring))
    ensures h.fails == old(h.fails) + if rc == -1 then 1 else 0
    ensures done <= count && rc == (if done == count then 0 else -1) && (rc == -1 ==> h.tls == [])
    ensures Grown(old(SpotOf(buf, h)), rs, rc == -1, SpotOf(buf, h)) && Poured(rs, |rs|) == Rep(x, done)
  {
    hide ReadyAt, Grown, Serve, CanServe, Put, Starve, RefQueue.Decode, Pouring, Rep;
    ghost var p := SpotOf(buf, h);
    PouringStart(p);
    RepJoin(x, 0, 0);
    rs := [];
    var total: nat := 0;
    while total < count
      invariant h.fails == old(h.fails)
      invariant total <= count && CanAppend(buf, h) && (buf.q.ring == old(buf.q.ring) || fresh(buf.q.ring))
      invariant Pouring(p, rs, SpotOf(buf, h), Rep(x, total))
    {
      ghost var q := SpotOf(buf, h);
      var b;
      ghost var junk;
      b, junk := NextBlock(buf, h);
      if b == NULL {
        PouringDry(p, rs, q, Rep(x, total));
        return -1, total, rs;
      }
      var space := h.m[b].cap - h.m[b].size;
      var nc := if count - total < space then count - total else space;
      RepJoin(x, total, nc);
      Pour(buf, h, b, Rep(x, nc), p, rs, q, Round(b, junk, Rep(x, nc)), Rep(x, total), Rep(x, total + nc));
      rs := rs + [Round(b, junk, Rep(x, nc))];
      total := total + nc;
    }
    PouringIs(p, rs, SpotOf(buf, h), Rep(x, total));
    return 0, total, rs;
  }

  method Resize(buf: IOBuf, n: nat, x: Byte, h: Heap) returns (rc: int, ghost done: nat, ghost rs: seq<Round>)
    requires CanAppend(buf, h)
    modifies buf.q, buf.q.ring, h
    ensures CanAppend(buf, h) && (buf.q.ring == old(buf.q.ring) || fresh(buf.q.ring))
    ensures h.fails == old(h.fails) + if rc == -1 then 1 else 0
    ensures var len := |Bytes(old(h.m), old(buf.q.Refs()))|;
      if n < len then
        rc == 0 && h.tls == old(h.tls) && Cropped(old(h.m), old(buf.q.Refs()), len - n, h.m, buf.q.Refs())
      else
        && done <= n - len && rc == (if done == n - len then 0 else -1) && (rc == -1 ==> h.tls == [])
        && Grown(old(SpotOf(buf, h)), rs, rc == -1, SpotOf(buf, h)) && Poured(rs, |rs|) == Rep(x, done)
  {
    hide Ready, Grown, RefQueue.Decode, Rep, Held, Left, Bytes, Total, DropBack, DropAll;
    ReadyIs(h.m, buf.q.Refs(), multiset(h.tls));
    HeldLength(h.m, buf.q.Refs());
    var len := buf.q.Length();
    if n < len {
      var popped := buf.PopBack(len - n, h);
      CroppedReady(old(h.m), old(buf.q.Refs()), multiset(h.tls), n, h.m, buf.q.Refs());
      return 0, 0, [];
    }
    rc, done, rs := Extend(buf, n - len, x, h);
  }

  /** pop_back of `n` bytes: the loop, or clear when that is all of them. */
  ghost predicate Cropped(m: Mem, s: seq<BlockRef>, n: nat, m': Mem, s': seq<BlockRef>) {
    if n < |Bytes(m, s)| then (m', s') == DropBack(m, s, n) else m' == DropAll(m, s) && s' == []
  }

  /** A buffer that loses bytes can still be appended to. */
  lemma CroppedReady(m: Mem, s: seq<BlockRef>, c: multiset<BlockId>, hi: nat, m': Mem, s': seq<BlockRef>)
    requires Ready(m, s, c) && Left(m, s, m', s', 0, hi)
    ensures Ready(m', s', c)
  {
    EffectFrame(m, Claims(s), m', Claims(s'), c);
  }

  // ---- appendv ----

  lemma FlatNext(vec: seq<seq<Byte>>, i: nat, off: nat, k: nat)
    requires i < |vec| && off + k <= |vec[i]|
    ensures Eq((Flat(vec, i) + vec[i][..off]) + vec[i][off..off + k], Flat(vec, i) + vec[i][..off + k])
    ensures off + k == |vec[i]| ==> Eq(Flat(vec, i) + vec[i][..off + k], Flat(vec, i + 1))
    ensures Size(vec, i + 1) == Size(vec, i) + |vec[i]|
  {
    Assoc(Flat(vec, i), vec[i][..off], vec[i][off..off + k]);
    TakeNext(vec[i], off, off + k);
    TakeEnds(vec[i]);
  }

  /** What appendv has copied when it is at byte `off` of the `i`-th piece. */
  ghost function Copied(vec: seq<seq<Byte>>, i: nat, off: nat): seq<Byte>
    requires i <= |vec| && (i < |vec| ==> off <= |vec[i]|)
  {
    Flat(vec, i) + (if i < |vec| then vec[i][..off] else [])
  }

  lemma CopiedStart(vec: seq<seq<Byte>>, i: nat)
    requires i <= |vec|
    ensures Eq(Copied(vec, i, 0), Flat(vec, i)) && Flat(vec, 0) == [] && Size(vec, 0) == 0
      && Size(vec, i) <= Size(vec, |vec|)
  {
    Nil(Flat(vec, i));
    SizeMonotone(vec, i, |vec|);
  }

  lemma CopiedOn(vec: seq<seq<Byte>>, i: nat, off: nat, k: nat, done: seq<Byte>, chunk: seq<Byte>)
    requires i < |vec| && off + k <= |vec[i]| && Eq(done + chunk, Copied(vec, i, off))
    ensures off + k < |vec[i]| ==> Eq(done + (chunk + vec[i][off..off + k]), Copied(vec, i, off + k))
    ensures off + k == |vec[i]| ==> Eq(done + (chunk + vec[i][off..off + k]), Copied(vec, i + 1, 0))
    ensures Size(vec, i + 1) == Size(vec, i) + |vec[i]| <= Size(vec, |vec|)
  {
    FlatNext(vec, i, off, k);
    CopiedStart(vec, i + 1);
    Assoc(done, chunk, vec[i][off..off + k]);
  }

  /** The copying of one round of appendv, into a block with room for `space` bytes. */
  method Gather(vec: seq<seq<Byte>>, i0: nat, offset0: nat, space: nat, ghost done: seq<Byte>)
    returns (i: nat, offset: nat, chunk: seq<Byte>)
    requires i0 < |vec| && offset0 <= |vec[i0]| && 0 < space && Size(vec, i0) + offset0 < Size(vec, |vec|)
    requires Eq(done, Copied(vec, i0, offset0))
    ensures i <= |vec| && (i < |vec| ==> offset <= |vec[i]| && Size(vec, i) + offset < Size(vec, |vec|))
      && 0 < |chunk| <= space
    ensures Eq(done + chunk, Copied(vec, i, if i < |vec| then offset else 0))
  {
    hide *;
    i, offset, chunk := i0, offset0, [];
    Nil(done);
    EqIs(done + [], done, Copied(vec, i0, offset0));
    while i < |vec|
      invariant i <= |vec| && |chunk| <= space && (i < |vec| ==> offset <= |vec[i]|) && (i == |vec| ==> offset == 0)
      invariant Size(vec, i) + offset == Size(vec, i0) + offset0 + |chunk| <= Size(vec, |vec|)
      invariant Eq(done + chunk, Copied(vec, i, offset))
    {
      var nc := if |vec[i]| - offset < space - |chunk| then |vec[i]| - offset else space - |chunk|;
      CopiedOn(vec, i, offset, nc, done, chunk);
      chunk := chunk + vec[i][offset..offset + nc];
      offset := offset + nc;
      if offset != |vec[i]| {
        return;
      }
      i, offset := i + 1, 0;
    }
  }

  method AppendV(buf: IOBuf, vec: seq<seq<Byte>>, h: Heap) returns (rc: int, ghost done: seq<Byte>,
    ghost rs: seq<Round>)
    requires CanAppend(buf, h) && (vec != [] ==> Size(vec, |vec|) > 0)
    modifies buf.q, buf.q.ring, h
    ensures CanAppend(buf, h) && (buf.q.ring == old(buf.q.ring) || fresh(buf.q.ring))
    ensures h.fails == old(h.fails) + if rc == -1 then 1 else 0
    ensures rc in {0, -1} && done <= Flat(vec, |vec|) && (rc == 0 ==> Eq(done, Flat(vec, |vec|)))
      && (rc == -1 ==> h.tls == [])
    ensures Grown(old(SpotOf(buf, h)), rs, rc == -1, SpotOf(buf, h)) && Poured(rs, |rs|) == done
  {
    hide ReadyAt, Grown, Serve, CanServe, Put, Starve, RefQueue.Decode, Pouring, Copied, Flat, Size;
    ghost var p := SpotOf(buf, h);
    PouringStart(p);
    CopiedStart(vec, 0);
    rs := [];
    var i: nat, offset: nat := 0, 0;
    done := [];
    EqEmpty(vec);
    while i < |vec|
      invariant h.fails == old(h.fails)
      invariant i <= |vec| && (i < |vec| ==> offset <= |vec[i]| && Size(vec, i) + offset < Size(vec, |vec|))
      invariant CanAppend(buf, h) && (buf.q.ring == old(buf.q.ring) || fresh(buf.q.ring))
      invariant Pouring(p, rs, SpotOf(buf, h), done)
      invariant Eq(done, Copied(vec, i, if i < |vec| then offset else 0))
      decreases Size(vec, |vec|) - |done|
    {
      ghost var q := SpotOf(buf, h);
      var b;
      ghost var junk;
      b, junk := NextBlock(buf, h);
      CopiedPrefix(vec, i, offset, done);
      if b == NULL {
        PouringDry(p, rs, q, done);
        return -1, done, rs;
      }
      var chunk;
      i, offset, chunk := Gather(vec, i, offset, h.m[b].cap - h.m[b].size, done);
      Pour(buf, h, b, chunk, p, rs, q, Round(b, junk, chunk), done, done + chunk);
      rs := rs + [Round(b, junk, chunk)];
      done := done + chunk;
      CopiedPrefix(vec, i, if i < |vec| then offset else 0, done);
    }
    CopiedPrefix(vec, i, 0, done);
    PouringIs(p, rs, SpotOf(buf, h), done);
    return 0, done, rs;
  }

  // ---- The next byte to be appended ----

  /** The next byte to be appended goes right behind the last ref. */
  predicate Continues(p: Spot) {
    var t := Roomed(p.m, p.t);
    t != [] && t[0] in p.m && Merges(p.s, BlockRef(p.m[t[0]].size, 0, t[0]))
  }

  /** The block of the first round, seen before it: the first with room, or a new one that nothing refers to. */
  lemma ServedBlock(p: Spot, r: Round, n: nat)
    requires ReadyAt(p) && CanServe(p, r)
    ensures var q, t := Serve(p, r), Roomed(p.m, p.t);
      if t != [] then q.t == t && t[0] in p.m && t[0] in q.m && q.m[t[0]] == p.m[t[0]]
      else q.t == [r.block] && r.block in q.m && q.m[r.block].size == 0 && !Merges(p.s, BlockRef(0, n, r.block))
  {
    hide Ready, TlsStep, TlsOk, Appended, Merges;
    ReadyIs(p.m, p.s, multiset(p.t));
    DropHeadsHead(p.m, p.t);
    DropHeadsStep(p.m, p.t);
    var (m1, t1) := DropHeads(p.m, p.t);
    if t1 == [] {
      BesideStep(p.m, p.s, multiset(p.t), m1, multiset(t1));
      AppendedReady(p.m, p.s, multiset(p.t), m1, p.s, multiset(t1), []);
      ReadySound(m1, p.s, multiset(t1));
      NotMerged(m1, p.s, r.block);
    }
  }

  lemma ReadySound(m: Mem, s: seq<BlockRef>, c: multiset<BlockId>)
    requires Ready(m, s, c)
    ensures Sound(m, s)
  {
  }

  lemma {:induction false} NoneIn(vec: seq<seq<Byte>>, i: nat, n: nat)
    requires i < n <= |vec| && Size(vec, n) == 0
    ensures |vec[i]| == 0
  {
    if i < n - 1 {
      NoneIn(vec, i, n - 1);
    }
  }

  /** A ref to no byte is in order only where it merges with the last one. */
  lemma EmptyRef(p: Spot, r: BlockRef)
    requires ReadyAt(p) && p.t != [] && p.t[0] in p.m && r == BlockRef(p.m[p.t[0]].size, 0, p.t[0])
    ensures ReadyAt(p.(m := PushMem(p.m, p.s, r), s := PushBack(p.s, r))) <==> Merges(p.s, r)
  {
    var q := p.(m := PushMem(p.m, p.s, r), s := PushBack(p.s, r));
    if Merges(p.s, r) {
      assert q.s == p.s && q.m == p.m;
    } else {
      assert !RefOk(q.m, q.s[|q.s| - 1]);
    }
  }

  /** What is pushed merges if the next byte goes right behind the last ref, and not otherwise. */
  lemma NextMerges(p: Spot, r: Round, n: nat)
    requires ReadyAt(p) && CanServe(p, r)
    ensures var q := Serve(p, r);
      q.t != [] && q.t[0] in q.m && q.s == p.s && (Merges(q.s, BlockRef(q.m[q.t[0]].size, n, q.t[0])) <==> Continues(p))
  {
    hide ReadyAt, Serve, CanServe, Roomed;
    ServedBlock(p, r, n);
    ServeRefs(p, r);
  }

  /** appendv of pieces that are all empty goes through one round and pushes a ref to no byte. Whether the buffer
      is in order afterwards can be told before the call. */
  method AppendEmptyPieces(buf: IOBuf, vec: seq<seq<Byte>>, h: Heap) returns (rc: int, ghost r: BlockRef)
    requires CanAppend(buf, h) && vec != [] && Size(vec, |vec|) == 0
    modifies buf.q, buf.q.ring, h
    ensures buf.q.Valid() && (buf.q.ring == old(buf.q.ring) || fresh(buf.q.ring))
    ensures h.fails == old(h.fails) + if rc == -1 then 1 else 0
    ensures rc in {0, -1} && (rc == -1 ==> CanAppend(buf, h) && SpotOf(buf, h) == Starve(old(SpotOf(buf, h))))
    ensures rc == 0 ==> r.length == 0 && buf.q.Refs() == PushBack(old(buf.q.Refs()), r)
    ensures rc == 0 ==> (CanAppend(buf, h) <==> Continues(old(SpotOf(buf, h))))
  {
    hide ReadyAt, Serve, CanServe, Starve, RefQueue.Decode, PushBack, PushMem, Merges, Size, Continues;
    r := NO_REF;
    ghost var p := SpotOf(buf, h);
    var b;
    ghost var junk;
    b, junk := NextBlock(buf, h);
    if b == NULL {
      return -1, r;
    }
    var space, total := h.m[b].cap - h.m[b].size, 0;
    for i := 0 to |vec|
      invariant total == 0
      modifies {}
    {
      NoneIn(vec, i, |vec|);
      total := total + if |vec[i]| < space - total then |vec[i]| else space - total;
    }
    ghost var q := SpotOf(buf, h);
    NextMerges(p, Round(b, junk, []), 0);
    var ref := BlockRef(h.m[b].size, total, b);
    ReadyRoom(q);
    EmptyRef(q, ref);
    buf.PushBackRef(ref, h);
    return 0, ref;
  }

  /** With an empty buffer, or when no block of the chain has room, the ref to no byte never merges. */
  lemma NeverContinues(p: Spot)
    requires p.s == [] || Roomed(p.m, p.t) == []
    ensures !Continues(p)
  {
  }

  /** An empty buffer and one block with room: the ref to no byte stands alone. */
  lemma EmptyRefAlone(b: BlockId, data: seq<Byte>)
    requires b != NULL && 0 < |data| < BLOCK_LIMIT
    ensures var p := Spot(Create(map[], b, data), [b], []);
      && ReadyAt(p) && !Continues(p)
      && !ReadyAt(p.(m := PushMem(p.m, p.s, BlockRef(0, 0, b)), s := PushBack(p.s, BlockRef(0, 0, b))))
  {
    var p := Spot(Create(map[], b, data), [b], []);
    assert Claims([]) + multiset(p.t) == multiset{b};
    EmptyRef(p, BlockRef(0, 0, b));
  }

  lemma ReadyRoom(p: Spot)
    requires ReadyAt(p) && p.t != [] && p.t[0] in p.m && p.m[p.t[0]].size < p.m[p.t[0]].cap
    ensures p.t[0] != NULL && p.m[p.t[0]].size < BLOCK_LIMIT
  {
  }

  lemma EqEmpty(vec: seq<seq<Byte>>)
    ensures Eq([], Copied(vec, 0, 0))
  {
    CopiedStart(vec, 0);
  }

  lemma CopiedPrefix(vec: seq<seq<Byte>>, i: nat, off: nat, done: seq<Byte>)
    requires i <= |vec| && (i < |vec| ==> off <= |vec[i]|) && Eq(done, Copied(vec, i, off))
    ensures done <= Flat(vec, |vec|) && |done| <= Size(vec, |vec|) && (i == |vec| ==> Eq(done, Flat(vec, |vec|)))
  {
    FlatSize(vec, |vec|);
    if i < |vec| {
      FlatNext(vec, i, 0, |vec[i]|);
      FlatPrefix(vec, i + 1, |vec|);
    } else {
      Nil(Flat(vec, i));
    }
  }

  // ---- reserve ----

  const MAX_REF_INDEX := 0x7FFFF
  const MAX_REF_OFFSET := 0x7FFF
  const MAX_AREA_SIZE := 0x3FFF_FFFF

  datatype Area = Invalid | Area(index: nat, offset: nat, size: nat)

  /** make_area, which takes the size in 32 bits; the area of all zeros is INVALID_AREA. */
  function MakeArea(index: nat, offset: nat, count: nat): Area {
    var size := count % UINT32_LIMIT;
    if index > MAX_REF_INDEX || offset > MAX_REF_OFFSET || size > MAX_AREA_SIZE then Invalid
    else if index == 0 && offset == 0 && size == 0 then Invalid
    else Area(index, offset, size)
  }

  ghost predicate AreaAstray(a: Area, s: seq<BlockRef>, at: nat, count: nat) {
    a.Area? && !(a.index < |s| && a.offset < s[a.index].length && TotalUpto(s, a.index) + a.offset == at
      && a.size == count % UINT32_LIMIT)
  }

  /** An area, if it is one, starts at byte `at` and is `count` bytes long, in 32 bits. */
  ghost predicate AreaAt(a: Area, s: seq<BlockRef>, at: nat, count: nat) {
    !AreaAstray(a, s, at, count)
  }

  /** The area of the first ref that reserve pushes. */
  lemma FirstArea(s: seq<BlockRef>, r: BlockRef, count: nat)
    requires r.length > 0
    ensures var t := PushBack(s, r); var last := t[|t| - 1];
      |t| > 0 && r.length <= last.length && AreaAt(MakeArea(|t| - 1, last.length - r.length, count), t, Total(s), count)
  {
    var t := PushBack(s, r);
    UptoSame(map[], s, t, |t| - 1);
  }

  lemma AreaStays(a: Area, s: seq<BlockRef>, at: nat, count: nat, r: BlockRef)
    requires AreaAt(a, s, at, count)
    ensures AreaAt(a, PushBack(s, r), at, count)
  {
    if a.Area? {
      UptoSame(map[], s, PushBack(s, r), a.index);
    }
  }

  /** What the bytes that reserve hands out happen to be. */
  function Garbage(m: Mem, b: BlockId, n: nat): (x: seq<Byte>)
    requires b in m && m[b].size + n <= |m[b].data|
    ensures |x| == n
  {
    m[b].data[m[b].size..m[b].size + n]
  }

  lemma GarbageFill(m: Mem, b: BlockId, n: nat)
    requires b in m && m[b].size + n <= |m[b].data|
    ensures Write(m, b, Garbage(m, b, n)) == m
  {
    var d, o := m[b].data, m[b].size;
    assert d[..o] + d[o..o + n] + d[o + n..] == d;
  }

  /** The round hands out bytes and leaves them what they are. */
  predicate Idle(p: Spot, r: Round) {
    && CanRound(p, r)
    && var q := Serve(p, r);
       && q.t != [] && q.t[0] in q.m && q.m[q.t[0]].size + |r.chunk| <= |q.m[q.t[0]].data|
       && r.chunk == Garbage(q.m, q.t[0], |r.chunk|)
  }

  /** So do the first `n` rounds. */
  predicate Unwritten(p: Spot, rs: seq<Round>, n: nat)
    requires n <= |rs|
  {
    n == 0 || (Unwritten(p, rs, n - 1) && Idle(Grow(p, rs, n - 1), rs[n - 1]))
  }

  lemma {:induction false} UnwrittenSame(p: Spot, rs: seq<Round>, us: seq<Round>, n: nat)
    requires n <= |rs| && n <= |us| && forall i :: 0 <= i < n ==> rs[i] == us[i]
    ensures Unwritten(p, rs, n) == Unwritten(p, us, n)
  {
    hide Idle, Grow;
    if n > 0 {
      UnwrittenSame(p, rs, us, n - 1);
      GrowSame(p, rs, us, n - 1);
    }
  }

  lemma UnwrittenOn(p: Spot, rs: seq<Round>, q: Spot, x: seq<Byte>, r: Round)
    requires Unwritten(p, rs, |rs|) && Pouring(p, rs, q, x) && Idle(q, r)
    ensures Unwritten(p, rs + [r], |rs| + 1)
  {
    hide Idle, Grow, ReadyAt, CanGrow, Poured;
    UnwrittenSame(p, rs, rs + [r], |rs|);
    GrowSame(p, rs, rs + [r], |rs|);
  }

  ghost predicate NotReserving(p: Spot, rs: seq<Round>, q: Spot, x: seq<Byte>, cap: nat) {
    !Pouring(p, rs, q, x) || !Unwritten(p, rs, |rs|) || !Standard(rs, cap)
  }

  /** The bytes `x` were handed out so far. */
  ghost predicate Reserving(p: Spot, rs: seq<Round>, q: Spot, x: seq<Byte>, cap: nat) {
    !NotReserving(p, rs, q, x, cap)
  }

  lemma ReservingStart(p: Spot, cap: nat)
    requires ReadyAt(p)
    ensures Reserving(p, [], p, [], cap)
  {
    hide ReadyAt, Pouring;
    PouringStart(p);
  }

  lemma ReservingIs(p: Spot, rs: seq<Round>, q: Spot, x: seq<Byte>, cap: nat)
    requires Reserving(p, rs, q, x, cap)
    ensures Grown(p, rs, false, q) && ReadyAt(q) && Poured(rs, |rs|) == x && Unwritten(p, rs, |rs|) && Standard(rs, cap)
    ensures Grown(p, rs, true, Starve(q))
  {
    hide Grown, ReadyAt, Poured, Unwritten, Standard, Starve;
    PouringIs(p, rs, q, x);
    PouringDry(p, rs, q, x);
  }

  lemma ReservingOn(p: Spot, rs: seq<Round>, q: Spot, x: seq<Byte>, cap: nat, r: Round, n: nat)
    requires Reserving(p, rs, q, x, cap) && CanServe(q, r) && |r.data| == cap && 0 < n
    requires var u := Serve(q, r);
      && u.t != [] && u.t[0] in u.m && u.m[u.t[0]].size + n <= u.m[u.t[0]].cap == |u.m[u.t[0]].data|
      && r.chunk == Garbage(u.m, u.t[0], n)
    ensures Reserving(p, rs + [r], Put(Serve(q, r), r.chunk), x + r.chunk, cap)
  {
    hide Pouring, Serve, CanServe, Unwritten, Garbage;
    UnwrittenOn(p, rs, q, x, r);
    PouringOn(p, rs, q, x, r, x + r.chunk);
    StandardOn(rs, r, cap);
  }

  /** One round of reserve. */
  method ReserveChunk(buf: IOBuf, h: Heap, n: nat)
    requires CanAppend(buf, h) && |h.tls| > 0 && h.tls[0] in h.m && 0 < n
    requires h.m[h.tls[0]].size + n <= h.m[h.tls[0]].cap == |h.m[h.tls[0]].data|
    modifies buf.q, buf.q.ring, h`m
    ensures buf.q.Valid() && (buf.q.ring == old(buf.q.ring) || fresh(buf.q.ring))
    ensures SpotOf(buf, h) == Put(old(SpotOf(buf, h)), Garbage(old(h.m), h.tls[0], n))
  {
    hide ReadyAt, PushMem, PushBack, RefQueue.Decode, Write, Garbage;
    var b := h.tls[0];
    ghost var x := Garbage(h.m, b, n);
    PutRoom(SpotOf(buf, h), x);
    GarbageFill(h.m, b, n);
    var r := BlockRef(h.m[b].size, n, b);
    HandOutLast(h.m, b, x, buf.q.Refs(), r);
    buf.PushBackRef(r, h);
    h.m := HandOut(h.m, b, n);
  }

  /** Where the first bytes of a reserve will be: in which ref, and how far in. */
  function FirstPlace(p: Spot): (nat, nat) {
    if Continues(p) then (|p.s| - 1, p.s[|p.s| - 1].length) else (|p.s|, 0)
  }

  /** That place and the size fit into the bits of an area. */
  predicate HasArea(p: Spot, count: nat) {
    count > 0 && MakeArea(FirstPlace(p).0, FirstPlace(p).1, count).Area?
  }

  /** The first ref of a reserve is pushed by the first round. */
  lemma HasAreaIs(p: Spot, r: Round, n: nat, count: nat)
    requires ReadyAt(p) && CanServe(p, r) && 0 < n <= count
    ensures var q := Serve(p, r); q.t != [] && q.t[0] in q.m
    ensures var q := Serve(p, r); var u := PushBack(q.s, NextRef(q, n));
      && |u| > 0 && u[|u| - 1].length >= n
      && (MakeArea(|u| - 1, u[|u| - 1].length - n, count).Area? <==> HasArea(p, count))
  {
    hide ReadyAt, Serve, CanServe, Continues, MakeArea;
    NextMerges(p, r, n);
  }

  /** reserve: `ok` says that malloc did not fail, and `x` is what the bytes happen to be. */
  method Reserve(buf: IOBuf, count: nat, h: Heap) returns (area: Area, ok: bool, ghost x: seq<Byte>,
    ghost rs: seq<Round>)
    requires CanAppend(buf, h)
    modifies buf.q, buf.q.ring, h
    ensures CanAppend(buf, h) && (buf.q.ring == old(buf.q.ring) || fresh(buf.q.ring))
    ensures h.fails == old(h.fails) + if ok then 0 else 1
    ensures |x| <= count && ok == (|x| == count) && (!ok ==> area == Invalid && h.tls == [])
    ensures Grown(old(SpotOf(buf, h)), rs, !ok, SpotOf(buf, h)) && Poured(rs, |rs|) == x
    ensures AreaAt(area, buf.q.Refs(), Total(old(buf.q.Refs())), count)
    ensures ok ==> (area.Area? <==> HasArea(old(SpotOf(buf, h)), count))
    ensures Unwritten(old(SpotOf(buf, h)), rs, |rs|) && Standard(rs, h.cap)
  {
    hide ReadyAt, Grown, Serve, CanServe, Put, Starve, RefQueue.Decode, Reserving, HasArea, MakeArea, AreaAt, Garbage,
      PushBack, Total, Unwritten, Standard;
    ghost var p := SpotOf(buf, h);
    ReservingStart(p, h.cap);
    rs := [];
    area, x := Invalid, [];
    InvalidAt(p.s, Total(p.s), count);
    NoArea(p);
    var total: nat := 0;
    while total < count
      invariant h.fails == old(h.fails)
      invariant total == |x| <= count && CanAppend(buf, h) && (buf.q.ring == old(buf.q.ring) || fresh(buf.q.ring))
      invariant Reserving(p, rs, SpotOf(buf, h), x, h.cap) && (total == 0 ==> SpotOf(buf, h) == p)
      invariant AreaAt(area, buf.q.Refs(), Total(p.s), count)
      invariant if total == 0 then area == Invalid else area.Area? <==> HasArea(p, count)
    {
      ghost var q := SpotOf(buf, h);
      var b;
      ghost var junk;
      b, junk := NextBlock(buf, h);
      if b == NULL {
        ReservingIs(p, rs, q, x, h.cap);
        area, ok := Invalid, false;
        InvalidAt(buf.q.Refs(), Total(p.s), count);
        return;
      }
      var space := h.m[b].cap - h.m[b].size;
      var nc := if count - total < space then count - total else space;
      ghost var u := SpotOf(buf, h);
      ghost var r := Round(b, junk, Garbage(u.m, b, nc));
      FirstArea(u.s, NextRef(u, nc), count);
      AreaStays(area, u.s, Total(p.s), count, NextRef(u, nc));
      if total == 0 {
        HasAreaIs(p, r, nc, count);
      }
      ReservingOn(p, rs, q, x, h.cap, r, nc);
      PutRefs(u, r.chunk);
      ReserveChunk(buf, h, nc);
      ReservingIs(p, rs + [r], SpotOf(buf, h), x + r.chunk, h.cap);
      if total == 0 {
        var num := buf.q.RefNum();
        var back := buf.q.RefAt(num - 1);
        area := MakeArea(num - 1, back.length - nc, count);
      }
      rs, x := rs + [r], x + r.chunk;
      total := total + nc;
    }
    ReservingIs(p, rs, SpotOf(buf, h), x, h.cap);
    ok := true;
  }

  lemma PutRefs(p: Spot, x: seq<Byte>)
    requires CanPut(p, x)
    ensures Put(p, x).s == PushBack(p.s, NextRef(p, |x|)) && Put(p, x).t == p.t
  {
  }

  lemma NoArea(p: Spot)
    ensures !HasArea(p, 0)
  {
  }

  lemma InvalidAt(s: seq<BlockRef>, at: nat, count: nat)
    ensures AreaAt(Invalid, s, at, count)
  {
  }

  // ---- append_user_data ----

  /** A block whose bytes belong to the user and are all handed out. */
  function Adopt(m: Mem, b: BlockId, data: seq<Byte>): Mem {
    m[b := Block(1, |data|, |data|, data)]
  }

  lemma AdoptEffect(m: Mem, b: BlockId, data: seq<Byte>)
    requires MemOk(m) && b !in m && b != NULL && 0 < |data| < BLOCK_LIMIT
    ensures Effect(m, multiset{}, Adopt(m, b, data), multiset{b})
    ensures var r := BlockRef(0, |data|, b); RefOk(Adopt(m, b, data), r) && Eq(Slice(Adopt(m, b, data), r), data)
  {
    SubIs(data, 0, |data|);
    assert data[0..0 + |data|] == data;
  }

  lemma AdoptBeside(m: Mem, s: seq<BlockRef>, c: multiset<BlockId>, b: BlockId, data: seq<Byte>)
    requires Ready(m, s, c) && b !in m && b != NULL && 0 < |data| < BLOCK_LIMIT
    ensures var m1 := Adopt(m, b, data);
      && Sound(m1, s) && Eq(Bytes(m1, s), Bytes(m, s)) && Covers(m1, Claims(s) + multiset{b} + c)
      && Effect(m, Claims(s) + c, m1, Claims(s) + multiset{b} + c)
  {
    var m1, d := Adopt(m, b, data), Claims(s) + c;
    AdoptEffect(m, b, data);
    EffectFrame(m, multiset{}, m1, multiset{b}, d);
    assert multiset{} + d == d && multiset{b} + d == Claims(s) + multiset{b} + c;
    CoversLess(m, Claims(s), c);
    assert multiset{} + Claims(s) == Claims(s);
    BystanderBytes(m, multiset{}, m1, multiset{b}, s);
  }

  lemma AdoptStep(m: Mem, s: seq<BlockRef>, c: multiset<BlockId>, b: BlockId, data: seq<Byte>)
    requires Ready(m, s, c) && b !in m && b != NULL && 0 < |data| < BLOCK_LIMIT
    ensures var r := BlockRef(0, |data|, b); var m1 := Adopt(m, b, data);
      Fits(m1, r) && Appended(m, s, c, MoveMem(m1, s, r), PushBack(s, r), c, data)
  {
    var r, m1 := BlockRef(0, |data|, b), Adopt(m, b, data);
    AdoptBeside(m, s, c, b, data);
    AdoptEffect(m, b, data);
    NotMerged(m, s, b);
    assert MoveMem(m1, s, r) == m1;
    hide Adopt, Merges, Bytes, Slice, Claims, Effect, Covers, RefOk, PushBack;
    PushBackBytes(m1, s, r);
    PushBackClaims(s, r);
    NewClaims(s, r, c);
  }

  lemma NewClaims(s: seq<BlockRef>, r: BlockRef, c: multiset<BlockId>)
    requires !Merges(s, r)
    ensures Claims(PushBack(s, r)) + c == Claims(s) + multiset{r.block} + c
  {
    PushBackClaims(s, r);
  }

  /** A ref to a new block never continues the last one. */
  lemma NotMerged(m: Mem, s: seq<BlockRef>, b: BlockId)
    requires Sound(m, s) && b !in m
    ensures forall r: BlockRef :: r.block == b ==> !Merges(s, r)
  {
    if s != [] {
      assert RefOk(m, s[|s| - 1]);
    }
  }

  /** The refs and memory after append_user_data, which made the block `b` if there was anything to append. */
  ghost predicate Adopted(p: Spot, b: BlockId, data: seq<Byte>, p': Spot) {
    if data == [] then p' == p
    else
      var r := BlockRef(0, |data|, b);
      b !in p.m && b != NULL && p' == p.(m := MoveMem(Adopt(p.m, b, data), p.s, r), s := PushBack(p.s, r))
  }

  method AppendUserData(buf: IOBuf, data: seq<Byte>, h: Heap) returns (rc: int, ghost b: BlockId)
    requires CanAppend(buf, h) && |data| < BLOCK_LIMIT
    modifies buf.q, buf.q.ring, h`m, h`fails
    ensures CanAppend(buf, h) && (buf.q.ring == old(buf.q.ring) || fresh(buf.q.ring))
    ensures h.fails == old(h.fails) + if rc == -1 then 1 else 0
    ensures rc in {0, -1} && Adopted(old(SpotOf(buf, h)), b, if rc == 0 then data else [], SpotOf(buf, h))
  {
    hide Ready, RefQueue.Decode, MoveMem, PushBack, Adopt, Appended;
    if |data| == 0 {
      return 0, NULL;
    }
    var a: BlockId := *;
    if a == NULL || a in h.m {
      h.fails := h.fails + 1;
      return -1, NULL;
    }
    AdoptStep(h.m, buf.q.Refs(), multiset(h.tls), a, data);
    ghost var m, s, c := h.m, buf.q.Refs(), multiset(h.tls);
    h.m := Adopt(h.m, a, data);
    buf.MoveBackRef(BlockRef(0, |data|, a), h);
    AppendedReady(m, s, c, h.m, buf.q.Refs(), c, data);
    return 0, a;
  }

  lemma AdoptedAppends(p: Spot, b: BlockId, data: seq<Byte>, p': Spot)
    requires ReadyAt(p) && |data| < BLOCK_LIMIT && Adopted(p, b, data, p')
    ensures AppendedAt(p, p', data) && ReadyAt(p')
  {
    hide MoveMem, PushBack, Adopt, Appended;
    NothingAppended(p.m, p.s, multiset(p.t));
    if data != [] {
      AdoptStep(p.m, p.s, multiset(p.t), b, data);
      AppendedReady(p.m, p.s, multiset(p.t), p'.m, p'.s, multiset(p'.t), data);
    }
  }

  lemma AdoptedSpares(p: Spot, b: BlockId, data: seq<Byte>, p': Spot)
    requires Adopted(p, b, data, p')
    ensures Spares(p.m, multiset(p.t), p'.m, multiset(p'.t)) && p'.t == p.t
  {
  }
}
