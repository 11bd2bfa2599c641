/** cut_until: cutting a buffer in front of a byte or of a longer delimiter. */
module CutUntil {
  import opened Chunks
  import opened Blocks
  import opened RefSteps
  import opened RefRuns
  import opened RefLoops
  import opened IOBufs
  import opened Delims

  ghost predicate NotParted(m0: Mem, s0: seq<BlockRef>, t0: seq<BlockRef>, m: Mem, s: seq<BlockRef>, t: seq<BlockRef>,
    k: nat, e: nat)
  {
    || !Held2(m, s, t) || !Effect(m0, Claims(s0) + Claims(t0), m, Claims(s) + Claims(t))
    || !(k <= e <= |Bytes(m0, s0)|) || Differ(Bytes(m, s), Bytes(m0, s0)[e..])
    || Differ(Bytes(m, t), Bytes(m0, t0) + Bytes(m0, s0)[..k])
  }

  /** The first `k` bytes went to the back of another buffer and the bytes [k, e) were dropped. */
  ghost predicate Parted(m0: Mem, s0: seq<BlockRef>, t0: seq<BlockRef>, m: Mem, s: seq<BlockRef>, t: seq<BlockRef>,
    k: nat, e: nat)
  {
    !NotParted(m0, s0, t0, m, s, t, k, e)
  }

  /** cutn, then pop_front. */
  lemma PartedIs(m0: Mem, s0: seq<BlockRef>, t0: seq<BlockRef>, m1: Mem, s1: seq<BlockRef>, t: seq<BlockRef>,
    m: Mem, s: seq<BlockRef>, k: nat, p: nat, all: nat, e: nat)
    requires Moved(m0, s0, t0, m1, s1, t, k) && all == |Bytes(m1, s1)| && Left(m1, s1, m, s, p, all) && e == k + p
    ensures Parted(m0, s0, t0, m, s, t, k, e)
  {
    PartedEffect(m0, s0, t0, m1, s1, t, m, s);
    DropTwice(Bytes(m0, s0), k, p, e, all);
  }

  lemma PartedEffect(m0: Mem, s0: seq<BlockRef>, t0: seq<BlockRef>, m1: Mem, s1: seq<BlockRef>, t: seq<BlockRef>,
    m: Mem, s: seq<BlockRef>)
    requires Effect(m0, Claims(s0) + Claims(t0), m1, Claims(s1) + Claims(t)) && Held2(m1, s1, t)
    requires Effect(m1, Claims(s1), m, Claims(s)) && Held(m, s)
    ensures Held2(m, s, t) && Effect(m0, Claims(s0) + Claims(t0), m, Claims(s) + Claims(t))
      && Eq(Bytes(m, t), Bytes(m1, t))
  {
    BystanderBytes(m1, Claims(s1), m, Claims(s), t);
    EffectFrame(m1, Claims(s1), m, Claims(s), Claims(t));
    EffectTrans(m0, Claims(s0) + Claims(t0), m1, Claims(s1) + Claims(t), m, Claims(s) + Claims(t));
  }

  lemma DropTwice(a: seq<Byte>, k: nat, p: nat, e: nat, all: nat)
    requires k <= |a| && e == k + p <= |a| && all == |a| - k
    ensures Eq(a[k..][p..all], a[e..])
  {
    assert a[k..][p..all] == a[e..];
  }

  /** The byte a scan looks at. */
  lemma ByteAt(m: Mem, s: seq<BlockRef>, i: nat, j: nat, n: nat)
    requires Sound(m, s) && i < |s| && j < s[i].length && n == TotalUpto(s, i) + j
    ensures Fits(m, s[i]) && s[i].offset + j < |m[s[i].block].data|
    ensures n < |Bytes(m, s)| && Bytes(m, s)[n] == m[s[i].block].data[s[i].offset + j]
  {
    assert RefOk(m, s[i]);
    PieceAt(m, s, i, j, 1, n, n + 1);
    SubIs(m[s[i].block].data, s[i].offset + j, 1);
    assert Bytes(m, s)[n..n + 1][0] == Bytes(m, s)[n];
  }

  lemma ScanOn(a: seq<Byte>, dsig: Sig, mask: Sig, n: nat, sig: Sig)
    requires n < |a| && sig == And(Shift(Rolling(a, n, mask), a[n]), mask)
    ensures sig == Rolling(a, n + 1, mask)
    ensures Scan(a, dsig, mask, n) == if sig == dsig then At(n + 1) else Scan(a, dsig, mask, n + 1)
  {
  }

  lemma ScanEnds(a: seq<Byte>, dsig: Sig, mask: Sig)
    ensures Rolling(a, 0, mask) == 0 && Scan(a, dsig, mask, |a|) == Nowhere
  {
  }

  /** The signature of a delimiter, as the loop over its bytes computes it. */
  method DelimSignature(d: seq<Byte>) returns (dsig: Sig)
    ensures dsig == Raw(d, |d|)
  {
    dsig := 0;
    for i := 0 to |d|
      invariant dsig == Raw(d, i)
    {
      dsig := Shift(dsig, d[i]);
    }
  }

  /** The loops of _cut_by_delim: the length to cut, if the delimiter is found. */
  method FindDelim(buf: IOBuf, d: seq<Byte>, h: Heap) returns (p: Place)
    requires buf.q.Valid() && Sound(h.m, buf.q.Refs())
    ensures p == Search(Bytes(h.m, buf.q.Refs()), d)
  {
    hide *;
    ghost var s := buf.q.Refs();
    ghost var a := Bytes(h.m, s);
    var len := buf.q.Length();
    SoundLength(h.m, s);
    if |d| > 8 || |d| > len {
      SearchNone(a, d);
      return Nowhere;
    }
    var dsig := DelimSignature(d);
    var mask := Mask(|d|);
    var nref := buf.q.RefNum();
    ScanEnds(a, dsig, mask);
    TotalEnds(s);
    var sig: Sig, n: nat := 0, 0;
    for i := 0 to nref
      invariant n == TotalUpto(s, i) && n <= |a| && sig == Rolling(a, n, mask)
      invariant Scan(a, dsig, mask, n) == Scan(a, dsig, mask, 0)
    {
      var r := buf.q.RefAt(i);
      for j := 0 to r.length
        invariant n == TotalUpto(s, i) + j && n <= |a| && sig == Rolling(a, n, mask)
        invariant Scan(a, dsig, mask, n) == Scan(a, dsig, mask, 0)
      {
        ByteAt(h.m, s, i, j, n);
        FitsIs(h.m, r);
        sig := And(Shift(sig, h.m[r.block].data[r.offset + j]), mask);
        ScanOn(a, dsig, mask, n, sig);
        if sig == dsig {
          SearchIs(a, d, dsig, mask);
          return At(SizeSub(n + 1, |d|));
        }
        n := n + 1;
      }
      TotalNext(s, i);
    }
    SearchIs(a, d, dsig, mask);
    return Nowhere;
  }

  lemma TotalNext(s: seq<BlockRef>, i: nat)
    requires i < |s|
    ensures TotalUpto(s, i + 1) == TotalUpto(s, i) + s[i].length
  {
  }

  lemma TotalEnds(s: seq<BlockRef>)
    ensures TotalUpto(s, 0) == 0 && TotalUpto(s, |s|) == Total(s)
  {
  }

  lemma SearchNone(a: seq<Byte>, d: seq<Byte>)
    requires |d| > 8 || |d| > |a|
    ensures Search(a, d) == Nowhere
  {
  }

  lemma SearchIs(a: seq<Byte>, d: seq<Byte>, dsig: Sig, mask: Sig)
    requires |d| <= 8 && |d| <= |a| && dsig == Raw(d, |d|) && mask == Mask(|d|)
    ensures Search(a, d) == match Scan(a, dsig, mask, 0) {
      case Nowhere => Nowhere
      case At(n) => At(SizeSub(n, |d|))
    }
  {
  }

  /** _cut_by_delim */
  method CutByDelim(buf: IOBuf, out: IOBuf, d: seq<Byte>, h: Heap) returns (rc: int)
    requires buf.q.Valid() && out.q.Valid() && out.q != buf.q && out.q.ring != buf.q.ring
    requires Held2(h.m, buf.q.Refs(), out.q.Refs())
    modifies buf.q, buf.q.ring, out.q, out.q.ring, h`m
    ensures buf.q.Valid() && out.q.Valid()
    ensures var a := Bytes(old(h.m), old(buf.q.Refs()));
      match Search(a, d) {
        case Nowhere =>
          rc == -1 && h.m == old(h.m) && buf.q.Refs() == old(buf.q.Refs()) && out.q.Refs() == old(out.q.Refs())
        case At(p) => var k := if p < |a| then p else |a|; var e := if k + |d| < |a| then k + |d| else |a|;
          rc == 0 && Parted(old(h.m), old(buf.q.Refs()), old(out.q.Refs()), h.m, buf.q.Refs(), out.q.Refs(), k, e)
      }
  {
    hide *;
    Held2Each(h.m, buf.q.Refs(), out.q.Refs());
    HeldLength(h.m, buf.q.Refs());
    var p := FindDelim(buf, d, h);
    if p.Nowhere? {
      return -1;
    }
    var moved := buf.Cutn(out, p.pos, h);
    ghost var m1, s1 := h.m, buf.q.Refs();
    MovedFacts(old(h.m), old(buf.q.Refs()), old(out.q.Refs()), m1, s1, out.q.Refs(), moved);
    var popped := buf.PopFront(|d|, h);
    PartedIs(old(h.m), old(buf.q.Refs()), old(out.q.Refs()), m1, s1, out.q.Refs(), h.m, buf.q.Refs(),
      moved, popped, |Bytes(m1, s1)|, moved + popped);
    return 0;
  }

  lemma MovedFacts(m0: Mem, s0: seq<BlockRef>, t0: seq<BlockRef>, m: Mem, s: seq<BlockRef>, t: seq<BlockRef>, k: nat)
    requires Moved(m0, s0, t0, m, s, t, k)
    ensures Held(m, s) && Held(m, t) && |Bytes(m, s)| == |Bytes(m0, s0)| - k
  {
    Held2Each(m, s, t);
  }

  /** With a delimiter that Delims.DelimOk admits, _cut_by_delim cuts at the first occurrence. */
  lemma CutsAtFirst(a: seq<Byte>, d: seq<Byte>)
    requires DelimOk(d) && |a| < SIZE_MODULUS
    ensures match Search(a, d) {
      case Nowhere => forall p: nat :: !Occurs(a, d, p)
      case At(p) => Occurs(a, d, p) && p + |d| <= |a| && forall q: nat :: q < p ==> !Occurs(a, d, q)
    }
  {
    SearchFinds(a, d);
    FirstIs(a, d);
  }

  // ---- A single byte ----

  /** The first place of byte `c` from `n` on. */
  function IndexFrom(a: seq<Byte>, c: Byte, n: nat): Place
    requires n <= |a|
    decreases |a| - n
  {
    if n == |a| then Nowhere else if a[n] == c then At(n) else IndexFrom(a, c, n + 1)
  }

  lemma {:induction false} IndexIs(a: seq<Byte>, c: Byte, n: nat)
    requires n <= |a| && c !in a[..n]
    ensures match IndexFrom(a, c, n) {
      case Nowhere => c !in a
      case At(k) => k < |a| && a[k] == c && c !in a[..k]
    }
    decreases |a| - n
  {
    if n == |a| {
      assert a[..n] == a;
    } else if a[n] != c {
      assert a[..n + 1] == a[..n] + [a[n]];
      IndexIs(a, c, n + 1);
    }
  }

  lemma IndexOn(a: seq<Byte>, c: Byte, n: nat)
    requires n <= |a|
    ensures IndexFrom(a, c, n) == if n == |a| then Nowhere else if a[n] == c then At(n) else IndexFrom(a, c, n + 1)
  {
  }

  /** The loops of _cut_by_char. */
  method FindByte(buf: IOBuf, c: Byte, h: Heap) returns (p: Place)
    requires buf.q.Valid() && Sound(h.m, buf.q.Refs())
    ensures match p {
      case Nowhere => c !in Bytes(h.m, buf.q.Refs())
      case At(k) => k < |Bytes(h.m, buf.q.Refs())| && Bytes(h.m, buf.q.Refs())[k] == c
        && c !in Bytes(h.m, buf.q.Refs())[..k]
    }
  {
    hide *;
    ghost var s := buf.q.Refs();
    ghost var a := Bytes(h.m, s);
    SoundLength(h.m, s);
    TotalEnds(s);
    IndexIs(a, c, 0);
    var nref := buf.q.RefNum();
    var n: nat := 0;
    for i := 0 to nref
      invariant n == TotalUpto(s, i) && n <= |a| && IndexFrom(a, c, n) == IndexFrom(a, c, 0)
    {
      var r := buf.q.RefAt(i);
      for j := 0 to r.length
        invariant n == TotalUpto(s, i) + j && n <= |a| && IndexFrom(a, c, n) == IndexFrom(a, c, 0)
      {
        ByteAt(h.m, s, i, j, n);
        FitsIs(h.m, r);
        IndexOn(a, c, n);
        if h.m[r.block].data[r.offset + j] == c {
          return At(n);
        }
        n := n + 1;
      }
      TotalNext(s, i);
    }
    IndexOn(a, c, n);
    return Nowhere;
  }

  /** _cut_by_char: the bytes before the first `c` are cut and `c` is dropped. */
  method CutByChar(buf: IOBuf, out: IOBuf, c: Byte, h: Heap) returns (rc: int)
    requires buf.q.Valid() && out.q.Valid() && out.q != buf.q && out.q.ring != buf.q.ring
    requires Held2(h.m, buf.q.Refs(), out.q.Refs())
    modifies buf.q, buf.q.ring, out.q, out.q.ring, h`m
    ensures buf.q.Valid() && out.q.Valid()
    ensures rc == if c in Bytes(old(h.m), old(buf.q.Refs())) then 0 else -1
    ensures rc == -1 ==> h.m == old(h.m) && buf.q.Refs() == old(buf.q.Refs()) && out.q.Refs() == old(out.q.Refs())
    ensures var a := Bytes(old(h.m), old(buf.q.Refs()));
      rc == 0 ==> (exists k: nat ::
        && k < |a| && a[k] == c && c !in a[..k]
        && Parted(old(h.m), old(buf.q.Refs()), old(out.q.Refs()), h.m, buf.q.Refs(), out.q.Refs(), k, k + 1))
  {
    hide *;
    Held2Each(h.m, buf.q.Refs(), out.q.Refs());
    HeldLength(h.m, buf.q.Refs());
    var p := FindByte(buf, c, h);
    if p.Nowhere? {
      return -1;
    }
    var moved := buf.Cutn(out, p.pos, h);
    ghost var m1, s1 := h.m, buf.q.Refs();
    MovedFacts(old(h.m), old(buf.q.Refs()), old(out.q.Refs()), m1, s1, out.q.Refs(), moved);
    var popped := buf.PopFront(1, h);
    PartedIs(old(h.m), old(buf.q.Refs()), old(out.q.Refs()), m1, s1, out.q.Refs(), h.m, buf.q.Refs(),
      moved, popped, |Bytes(m1, s1)|, moved + 1);
    return 0;
  }
}
