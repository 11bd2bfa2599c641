/**
 unsafe_assign: the one operation that changes bytes a block has handed out. Whoever refers to those
 bytes sees the change.
 */
module Overwrites {
  import opened Chunks
  import opened Blocks
  import opened RefRuns
  import opened RefLoops
  import opened RefQueues
  import opened IOBufs
  import opened Appends
  import opened RefPlaces

  // ---- Bytes by place ----

  predicate InMem(m: Mem, p: Place) {
    p.block in m && p.at < |m[p.block].data|
  }

  /** The byte at a place. */
  function Peek(m: Mem, p: Place): Byte
    requires InMem(m, p)
  {
    m[p.block].data[p.at]
  }

  function Poke(m: Mem, p: Place, x: Byte): Mem {
    if InMem(m, p) then m[p.block := m[p.block].(data := m[p.block].data[p.at := x])] else m
  }

  /** The first `n` of the places get the first `n` of the bytes, one after the other. */
  function Overwrite(m: Mem, ps: seq<Place>, x: seq<Byte>, n: nat): Mem
    requires n <= |ps| && n <= |x|
  {
    if n == 0 then m else Poke(Overwrite(m, ps, x, n - 1), ps[n - 1], x[n - 1])
  }

  /** Blocks differ in their bytes only. */
  ghost predicate SameShape(m: Mem, m': Mem) {
    m'.Keys == m.Keys && forall b :: b in m ==> m'[b].(data := m[b].data) == m[b] && |m'[b].data| == |m[b].data|
  }

  lemma PokeShape(m: Mem, p: Place, x: Byte)
    ensures SameShape(m, Poke(m, p, x))
  {
  }

  lemma ShapeTrans(m0: Mem, m1: Mem, m2: Mem)
    requires SameShape(m0, m1) && SameShape(m1, m2)
    ensures SameShape(m0, m2)
  {
    forall b | b in m0
      ensures m2[b].(data := m0[b].data) == m0[b]
    {
      assert m1[b].(data := m0[b].data) == m0[b] && m2[b].(data := m1[b].data) == m1[b];
    }
  }

  lemma {:induction false} OverwriteShape(m: Mem, ps: seq<Place>, x: seq<Byte>, n: nat)
    requires n <= |ps| && n <= |x|
    ensures SameShape(m, Overwrite(m, ps, x, n))
  {
    hide SameShape, Poke;
    if n == 0 {
      ShapeSelf(m);
    } else {
      OverwriteShape(m, ps, x, n - 1);
      PokeShape(Overwrite(m, ps, x, n - 1), ps[n - 1], x[n - 1]);
      ShapeTrans(m, Overwrite(m, ps, x, n - 1), Overwrite(m, ps, x, n));
    }
  }

  lemma {:induction false} OverwriteSame(m: Mem, ps: seq<Place>, qs: seq<Place>, x: seq<Byte>, n: nat)
    requires n <= |ps| && n <= |qs| && n <= |x| && forall k :: 0 <= k < n ==> ps[k] == qs[k]
    ensures Overwrite(m, ps, x, n) == Overwrite(m, qs, x, n)
  {
    if n > 0 {
      OverwriteSame(m, ps, qs, x, n - 1);
    }
  }

  lemma ShapeSelf(m: Mem)
    ensures SameShape(m, m)
  {
  }

  /** No place twice. */
  ghost predicate NoDup(ps: seq<Place>) {
    forall i, j :: 0 <= i < j < |ps| ==> ps[i] != ps[j]
  }

  lemma PokeElsewhere(m: Mem, p: Place, x: Byte, q: Place)
    requires InMem(m, q)
    ensures InMem(Poke(m, p, x), q) && Peek(Poke(m, p, x), q) == if p == q then x else Peek(m, q)
  {
  }

  /** A place that is not written keeps its byte. */
  lemma {:induction false} PeekMissed(m: Mem, ps: seq<Place>, x: seq<Byte>, n: nat, p: Place)
    requires n <= |ps| && n <= |x| && InMem(m, p) && forall k :: 0 <= k < n ==> ps[k] != p
    ensures InMem(Overwrite(m, ps, x, n), p) && Peek(Overwrite(m, ps, x, n), p) == Peek(m, p)
  {
    hide InMem, Peek, Poke;
    if n > 0 {
      PeekMissed(m, ps, x, n - 1, p);
      PokeElsewhere(Overwrite(m, ps, x, n - 1), ps[n - 1], x[n - 1], p);
    }
  }

  /** A place that is written once has the byte it got. */
  lemma {:induction false} PeekHit(m: Mem, ps: seq<Place>, x: seq<Byte>, n: nat, k: nat)
    requires k < n <= |ps| && n <= |x| && InMem(m, ps[k]) && NoDup(ps)
    ensures InMem(Overwrite(m, ps, x, n), ps[k]) && Peek(Overwrite(m, ps, x, n), ps[k]) == x[k]
  {
    hide InMem, Peek, Poke;
    var m1 := Overwrite(m, ps, x, n - 1);
    if k < n - 1 {
      PeekHit(m, ps, x, n - 1, k);
    } else {
      PeekMissed(m, ps, x, n - 1, ps[k]);
    }
    PokeElsewhere(m1, ps[n - 1], x[n - 1], ps[k]);
  }

  // ---- Bytes of refs ----

  lemma {:induction false} SlicePeeks(m: Mem, r: BlockRef, k: nat)
    requires MemOk(m) && RefOk(m, r) && k < r.length
    ensures |Slice(m, r)| == r.length == |Span(r)| && Span(r)[k] == Place(r.block, r.offset + k)
    ensures IsByte(m, Span(r)[k], Slice(m, r)[k])
  {
    SubIs(m[r.block].data, r.offset, r.length);
    SpanIs(r, r.length);
  }

  lemma LengthsUpto(m: Mem, s: seq<BlockRef>, n: nat)
    requires Sound(m, s) && n <= |s|
    ensures |BytesUpto(m, s, n)| == |PlacesUpto(s, n)| == TotalUpto(s, n)
  {
    hide Sound;
    PlacesLength(s, n);
    BytesLength(m, s);
    BytesUptoLength(m, s, n);
  }

  lemma SoundRef(m: Mem, s: seq<BlockRef>, i: nat)
    requires Sound(m, s) && i < |s|
    ensures MemOk(m) && RefOk(m, s[i])
  {
  }

  predicate IsByte(m: Mem, p: Place, x: Byte) {
    InMem(m, p) && Peek(m, p) == x && p.at < m[p.block].size
  }

  /** The `q`-th byte of a buffer is the one at its `q`-th place. */
  lemma {:induction false} BytesPeek(m: Mem, s: seq<BlockRef>, n: nat, q: nat)
    requires Sound(m, s) && n <= |s| && q < TotalUpto(s, n)
    ensures |BytesUpto(m, s, n)| == |PlacesUpto(s, n)| == TotalUpto(s, n)
    ensures IsByte(m, PlacesUpto(s, n)[q], BytesUpto(m, s, n)[q])
  {
    hide Sound, Slice, Span, IsByte, RefOk, MemOk;
    LengthsUpto(m, s, n);
    assert n > 0;
    LengthsUpto(m, s, n - 1);
    if q < TotalUpto(s, n - 1) {
      BytesPeek(m, s, n - 1, q);
    } else {
      SoundRef(m, s, n - 1);
      SlicePeeks(m, s[n - 1], q - TotalUpto(s, n - 1));
    }
  }

  lemma BytePeek(m: Mem, s: seq<BlockRef>, q: nat)
    requires Sound(m, s) && q < Total(s)
    ensures |Bytes(m, s)| == |Places(s)| == Total(s)
    ensures InMem(m, Places(s)[q]) && Bytes(m, s)[q] == Peek(m, Places(s)[q])
    ensures Places(s)[q].at < m[Places(s)[q].block].size
  {
    BytesPeek(m, s, |s|, q);
  }

  lemma LengthsAgree(m: Mem, s: seq<BlockRef>)
    requires Sound(m, s)
    ensures |Bytes(m, s)| == |Places(s)| == Total(s)
  {
    BytesLength(m, s);
    PlacesLength(s, |s|);
  }

  lemma ShapeSound(m: Mem, m': Mem, s: seq<BlockRef>)
    requires SameShape(m, m') && Sound(m, s)
    ensures Sound(m', s)
  {
    forall b | b in m'
      ensures BlockOk(m'[b])
    {
      assert m'[b].(data := m[b].data) == m[b];
    }
    forall i | 0 <= i < |s|
      ensures RefOk(m', s[i])
    {
      assert RefOk(m, s[i]);
      var b := s[i].block;
      assert m'[b].(data := m[b].data) == m[b];
    }
  }

  /** Who refers to none of the places sees no change. */
  lemma OverwriteBeside(m: Mem, ps: seq<Place>, x: seq<Byte>, s: seq<BlockRef>)
    requires Sound(m, s) && |x| <= |ps| && forall q :: 0 <= q < |Places(s)| ==> Places(s)[q] !in ps[..|x|]
    ensures Sound(Overwrite(m, ps, x, |x|), s) && Bytes(Overwrite(m, ps, x, |x|), s) == Bytes(m, s)
  {
    hide Overwrite, SameShape, Sound;
    var m' := Overwrite(m, ps, x, |x|);
    OverwriteShape(m, ps, x, |x|);
    ShapeSound(m, m', s);
    LengthsAgree(m, s);
    LengthsAgree(m', s);
    forall q | 0 <= q < |Bytes(m, s)|
      ensures Bytes(m', s)[q] == Bytes(m, s)[q]
    {
      BytePeek(m, s, q);
      BytePeek(m', s, q);
      assert forall k :: 0 <= k < |x| ==> ps[..|x|][k] == ps[k];
      PeekMissed(m, ps, x, |x|, Places(s)[q]);
    }
  }

  function Patched(a: seq<Byte>, at: nat, x: seq<Byte>): seq<Byte>
    requires at + |x| <= |a|
  {
    a[..at] + x + a[at + |x|..]
  }

  /** A buffer that refers to its own places once sees them patched. */
  lemma OverwriteOwn(m: Mem, s: seq<BlockRef>, at: nat, x: seq<Byte>)
    requires Sound(m, s) && at + |x| <= |Places(s)|
    requires var ps := Places(s)[at..at + |x|];
      NoDup(ps) && forall q :: 0 <= q < |Places(s)| && !(at <= q < at + |x|) ==> Places(s)[q] !in ps
    ensures var m' := Overwrite(m, Places(s)[at..at + |x|], x, |x|);
      at + |x| <= |Bytes(m, s)| && Sound(m', s) && Bytes(m', s) == Patched(Bytes(m, s), at, x)
  {
    hide Overwrite, SameShape, Sound;
    var ps, n := Places(s)[at..at + |x|], |x|;
    var m' := Overwrite(m, ps, x, n);
    OverwriteShape(m, ps, x, n);
    ShapeSound(m, m', s);
    LengthsAgree(m, s);
    LengthsAgree(m', s);
    assert ps[..n] == ps;
    forall q | 0 <= q < |Bytes(m, s)|
      ensures Bytes(m', s)[q] == Patched(Bytes(m, s), at, x)[q]
    {
      BytePeek(m, s, q);
      BytePeek(m', s, q);
      if at <= q < at + n {
        assert ps[q - at] == Places(s)[q];
        PeekHit(m, ps, x, n, q - at);
      } else {
        PeekMissed(m, ps, x, n, Places(s)[q]);
      }
    }
  }

  // ---- unsafe_assign ----

  /** Bytes copied over those of a block from `o` on. */
  function Splice(m: Mem, b: BlockId, o: nat, x: seq<Byte>): Mem
    requires b in m && o + |x| <= |m[b].data|
  {
    m[b := m[b].(data := m[b].data[..o] + x + m[b].data[o + |x|..])]
  }

  lemma SplicePoke(m: Mem, b: BlockId, o: nat, x: seq<Byte>)
    requires b in m && 0 < |x| && o + |x| <= |m[b].data|
    ensures var k := |x| - 1; Splice(m, b, o, x) == Poke(Splice(m, b, o, x[..k]), Place(b, o + k), x[k])
  {
    var k := |x| - 1;
    assert Splice(m, b, o, x)[b].data == Splice(m, b, o, x[..k])[b].data[o + k := x[k]];
  }

  /** Copying the next `k` bytes at once is writing them one by one. */
  lemma {:induction false} OverwriteChunk(m: Mem, ps: seq<Place>, x: seq<Byte>, d: nat, k: nat, b: BlockId, o: nat)
    requires d + k <= |ps| && d + k <= |x| && forall l :: d <= l < d + k ==> ps[l] == Place(b, o + l - d)
    requires var m1 := Overwrite(m, ps, x, d); b in m1 && o + k <= |m1[b].data|
    ensures Splice(Overwrite(m, ps, x, d), b, o, x[d..d + k]) == Overwrite(m, ps, x, d + k)
  {
    hide Poke;
    var m1 := Overwrite(m, ps, x, d);
    if k == 0 {
      assert m1[b].data[..o] + x[d..d] + m1[b].data[o..] == m1[b].data;
    } else {
      OverwriteChunk(m, ps, x, d, k - 1, b, o);
      SplicePoke(m1, b, o, x[d..d + k]);
      assert x[d..d + k][..k - 1] == x[d..d + k - 1];
      assert ps[d + k - 1] == Place(b, o + k - 1);
    }
  }

  lemma SpanAt(r: BlockRef, l: nat)
    requires l < r.length
    ensures |Span(r)| == r.length && Span(r)[l] == Place(r.block, r.offset + l)
  {
    SpanIs(r, r.length);
  }

  lemma {:induction false} PlaceOf(s: seq<BlockRef>, i: nat, n: nat, l: nat)
    requires i < n <= |s| && l < s[i].length
    ensures TotalUpto(s, i) + l < |PlacesUpto(s, n)|
    ensures PlacesUpto(s, n)[TotalUpto(s, i) + l] == Place(s[i].block, s[i].offset + l)
  {
    hide Span, TotalUpto;
    if i < n - 1 {
      PlaceOf(s, i, n - 1, l);
    } else {
      PlacesLength(s, i);
      SpanAt(s[i], l);
    }
  }

  /** Where in the buffer an area starts. */
  function StartOf(area: Area, s: seq<BlockRef>): nat
    requires area.Area?
  {
    if area.index < |s| then TotalUpto(s, area.index) + area.offset else Total(s)
  }

  /** The places from an area on. */
  function PlacesFrom(s: seq<BlockRef>, at: nat): seq<Place> {
    if at <= |Places(s)| then Places(s)[at..] else []
  }

  /** The places of a part of a ref, counted from `at`. */
  lemma PiecePlaces(s: seq<BlockRef>, i: nat, off: nat, k: nat, at: nat, d: nat)
    requires i < |s| && off + k <= s[i].length && at + d == TotalUpto(s, i) + off
    ensures d + k <= |PlacesFrom(s, at)|
    ensures forall l :: d <= l < d + k ==> PlacesFrom(s, at)[l] == Place(s[i].block, s[i].offset + off + l - d)
  {
    hide PlacesUpto;
    PlacesLength(s, |s|);
    TotalBound(s, i);
    forall l | d <= l < d + k
      ensures PlacesFrom(s, at)[l] == Place(s[i].block, s[i].offset + off + l - d)
    {
      PlaceOf(s, i, |s|, off + l - d);
    }
  }

  /** The next part of an area is written. */
  lemma AssignStep(m: Mem, s: seq<BlockRef>, at: nat, x: seq<Byte>, d: nat, i: nat, off: nat, k: nat)
    requires Sound(m, s) && i < |s| && off + k <= s[i].length && at + d == TotalUpto(s, i) + off && d + k <= |x|
    requires d <= |PlacesFrom(s, at)|
    ensures d + k <= |PlacesFrom(s, at)|
    ensures var m1, o := Overwrite(m, PlacesFrom(s, at), x, d), s[i].offset + off;
      && s[i].block in m1 && o + k <= |m1[s[i].block].data|
      && Splice(m1, s[i].block, o, x[d..d + k]) == Overwrite(m, PlacesFrom(s, at), x, d + k)
  {
    hide Overwrite, PlacesFrom, Splice;
    var ps, b := PlacesFrom(s, at), s[i].block;
    PiecePlaces(s, i, off, k, at, d);
    SoundRef(m, s, i);
    OverwriteShape(m, ps, x, d);
    assert b in m;
    OverwriteChunk(m, ps, x, d, k, b, s[i].offset + off);
  }

  lemma StartIs(area: Area, s: seq<BlockRef>, m: Mem, x: seq<Byte>)
    requires area.Area? && (area.index < |s| ==> area.offset <= s[area.index].length)
    ensures |PlacesFrom(s, StartOf(area, s))| == Total(s) - StartOf(area, s)
    ensures if area.index < |s| then StartOf(area, s) == TotalUpto(s, area.index) + area.offset
      else StartOf(area, s) == Total(s)
    ensures Overwrite(m, PlacesFrom(s, StartOf(area, s)), x, 0) == m && TotalUpto(s, |s|) == Total(s)
  {
    hide PlacesUpto;
    if area.index < |s| {
      TotalBound(s, area.index);
    }
    PlacesLength(s, |s|);
  }

  lemma NextTotal(s: seq<BlockRef>, i: nat)
    requires i < |s|
    ensures TotalUpto(s, i + 1) == TotalUpto(s, i) + s[i].length
  {
  }

  /** Writes the bytes of an area anew: as far as the buffer goes, and 0 if that was far enough. */
  method UnsafeAssign(buf: IOBuf, area: Area, data: seq<Byte>, h: Heap) returns (rc: int)
    requires buf.q.Valid() && Sound(h.m, buf.q.Refs())
    requires area.Area? ==> |data| == area.size
    requires area.Area? && area.index < |buf.q.Refs()| ==> area.offset <= buf.q.Refs()[area.index].length
    modifies h`m
    ensures area == Invalid ==> rc == -1 && h.m == old(h.m)
    ensures area.Area? ==>
      var s := buf.q.Refs();
      var ps := PlacesFrom(s, StartOf(area, s));
      && rc == (if area.index < |s| && |data| <= |ps| then 0 else -1)
      && h.m == Overwrite(old(h.m), ps, data, Min(|data|, |ps|))
  {
    hide RefQueue.Decode, Sound, Splice, TotalUpto, Total, Places, PlacesFrom, StartOf, Overwrite;
    if area == Invalid {
      return -1;
    }
    ghost var s, was := buf.q.Refs(), h.m;
    ghost var at := StartOf(area, s);
    ghost var ps := PlacesFrom(s, at);
    ghost var d: nat := 0;
    StartIs(area, s, was, data);
    var num := buf.q.RefNum();
    var i: nat, offset: nat, length: nat := area.index, area.offset, area.size;
    if i >= num {
      return -1;
    }
    while i < num
      invariant i <= num && at + d == TotalUpto(s, i) + offset
        && (if i < num then offset <= s[i].length else offset == 0)
      invariant d <= |ps| && d + length == |data| && h.m == Overwrite(was, ps, data, d)
      invariant area.index < i ==> length > 0
    {
      var r := buf.q.RefAt(i);
      var nc := if length < r.length - offset then length else r.length - offset;
      AssignStep(was, s, at, data, d, i, offset, nc);
      h.m := Splice(h.m, r.block, r.offset + offset, data[|data| - length..][..nc]);
      assert data[|data| - length..][..nc] == data[d..d + nc];
      d := d + nc;
      if length == nc {
        return 0;
      }
      NextTotal(s, i);
      i, offset, length := i + 1, 0, length - nc;
    }
    rc := -1;
  }
}
