/**
 What a cutter sees. A cutter keeps the first ref of its buffer loaded and consumes it byte by byte;
 `u` bytes of that ref are used up while the buffer still holds all of it.
 */
module CutterSteps {
  import opened Chunks
  import opened Blocks
  import opened RefLists
  import opened RefSteps
  import opened RefRuns
  import opened RefLoops
  import opened Recounts

  /** The bytes a cutter has still before it. */
  function View(m: Mem, s: seq<BlockRef>, u: nat): seq<Byte> {
    Rest(m, s, 0, u)
  }

  predicate UsedOk(s: seq<BlockRef>, u: nat) {
    if s == [] then u == 0 else u <= s[0].length
  }

  ghost predicate NotStepped(m0: Mem, s0: seq<BlockRef>, u0: nat, m: Mem, s: seq<BlockRef>, u: nat, k: nat) {
    || !Held(m, s) || !UsedOk(s, u) || !Effect(m0, Claims(s0), m, Claims(s)) || !Recounted(m0, m)
    || k > |View(m0, s0, u0)| || Differ(View(m, s, u), View(m0, s0, u0)[k..])
  }

  /** The cutter went `k` bytes on. */
  ghost predicate Stepped(m0: Mem, s0: seq<BlockRef>, u0: nat, m: Mem, s: seq<BlockRef>, u: nat, k: nat) {
    !NotStepped(m0, s0, u0, m, s, u, k)
  }

  lemma SteppedNone(m: Mem, s: seq<BlockRef>, u: nat)
    requires Held(m, s) && UsedOk(s, u)
    ensures Stepped(m, s, u, m, s, u, 0)
  {
    hide Recounted;
    CountRecounts(m, NULL);
    EffectRefl(m, Claims(s));
    Whole(View(m, s, u));
  }

  lemma SteppedTrans(m0: Mem, s0: seq<BlockRef>, u0: nat, m1: Mem, s1: seq<BlockRef>, u1: nat, k: nat,
    m2: Mem, s2: seq<BlockRef>, u2: nat, l: nat, n: nat)
    requires Stepped(m0, s0, u0, m1, s1, u1, k) && Stepped(m1, s1, u1, m2, s2, u2, l) && n == k + l
    ensures Stepped(m0, s0, u0, m2, s2, u2, n)
  {
    hide Recounted;
    RecountedTrans(m0, m1, m2);
    EffectTrans(m0, Claims(s0), m1, Claims(s1), m2, Claims(s2));
    DropAgain(View(m0, s0, u0), k, l, n);
  }

  lemma DropAgain(a: seq<Byte>, k: nat, l: nat, n: nat)
    requires k <= |a| && l <= |a[k..]| && n == k + l
    ensures n <= |a| && Eq(a[k..][l..], a[n..])
  {
    assert a[k..][l..] == a[n..];
  }

  /** What is left of the loaded ref comes first. */
  lemma ViewParts(m: Mem, s: seq<BlockRef>, u: nat, k: nat)
    requires Sound(m, s) && s != [] && u + k <= s[0].length
    ensures var x := Slice(m, Piece(s[0], u, k)); |x| == k && Eq(View(m, s, u), x + View(m, s, u + k))
  {
    assert RefOk(m, s[0]);
    PieceSplit(m, s[0], u, k);
    Assoc(Slice(m, Piece(s[0], u, k)), Slice(m, Piece(s[0], u + k, Over(s[0].length, u + k))), BytesFrom(m, s, 1));
  }

  lemma PieceSplit(m: Mem, r: BlockRef, u: nat, k: nat)
    requires MemOk(m) && RefOk(m, r) && u + k <= r.length
    ensures Eq(Slice(m, Piece(r, u, Over(r.length, u))),
      Slice(m, Piece(r, u, k)) + Slice(m, Piece(r, u + k, Over(r.length, u + k))))
    ensures |Slice(m, Piece(r, u, k))| == k
  {
    SubSplit(m[r.block].data, r.offset + u, k, r.length - u - k);
    SubSame(m[r.block].data, m[r.block].data, r.offset + u, k);
  }

  /** Bytes of the loaded ref are used up. */
  lemma UseStep(m: Mem, s: seq<BlockRef>, u: nat, k: nat)
    requires Held(m, s) && s != [] && u + k <= s[0].length
    ensures Stepped(m, s, u, m, s, u + k, k) && Eq(Take(View(m, s, u), k), Slice(m, Piece(s[0], u, k)))
  {
    hide Recounted;
    CountRecounts(m, NULL);
    var x := Slice(m, Piece(s[0], u, k));
    ViewParts(m, s, u, k);
    EffectRefl(m, Claims(s));
    FrontIs(View(m, s, u), x, View(m, s, u + k), k);
  }

  lemma FrontIs(a: seq<Byte>, x: seq<Byte>, y: seq<Byte>, k: nat)
    requires Eq(a, x + y) && k == |x|
    ensures k <= |a| && Eq(y, a[k..]) && Eq(Take(a, k), x)
  {
    Split(x, y);
  }

  /** The loaded ref is dropped, and with it the bytes that were left of it. */
  lemma DropRefStep(m: Mem, s: seq<BlockRef>, u: nat, k: nat)
    requires Held(m, s) && s != [] && u + k == s[0].length
    ensures Stepped(m, s, u, DecRef(m, s[0].block), s[1..], 0, k)
  {
    hide Recounted;
    CountRecounts(m, s[0].block);
    var m1 := DecRef(m, s[0].block);
    PopFrontStep(m, s);
    ViewParts(m, s, u, k);
    ViewUsedUp(m, s);
    ViewWhole(m1, s[1..]);
    PopFrontBeside(m, s);
    FrontIs(View(m, s, u), Slice(m, Piece(s[0], u, k)), View(m, s, u + k), k);
  }

  lemma PopFrontBeside(m: Mem, s: seq<BlockRef>)
    requires Held(m, s) && s != []
    ensures Eq(Bytes(DecRef(m, s[0].block), s[1..]), Bytes(m, s[1..]))
  {
    First(m, s);
    DropStep(m, s[0].block, s[1..]);
  }

  lemma ViewUsedUp(m: Mem, s: seq<BlockRef>)
    requires Sound(m, s) && s != []
    ensures Eq(View(m, s, s[0].length), Bytes(m, s[1..]))
  {
    assert RefOk(m, s[0]);
    assert Slice(m, Piece(s[0], s[0].length, 0)) == [];
    Nil(BytesFrom(m, s, 1));
    FromTail(m, s, 1);
    UptoFrom(m, s[1..], 0);
    Nil(BytesFrom(m, s[1..], 0));
  }

  lemma {:induction false} FromTail(m: Mem, s: seq<BlockRef>, k: nat)
    requires 0 < k <= |s|
    ensures Eq(BytesFrom(m, s, k), BytesFrom(m, s[1..], k - 1))
    decreases |s| - k
  {
    if k < |s| {
      FromTail(m, s, k + 1);
    }
  }

  /** With nothing loaded the cutter sees the whole buffer. */
  lemma ViewWhole(m: Mem, s: seq<BlockRef>)
    ensures Eq(View(m, s, 0), Bytes(m, s))
  {
    RestAll(m, s);
  }

  /** With nothing loaded, dropping bytes of the buffer is going on. */
  lemma LeftStepped(m: Mem, s: seq<BlockRef>, m1: Mem, s1: seq<BlockRef>, k: nat, all: nat)
    requires Left(m, s, m1, s1, k, all) && all == |Bytes(m, s)| && Recounted(m, m1)
    ensures Stepped(m, s, 0, m1, s1, 0, k)
  {
    hide Bytes, View, Held, Effect, Recounted;
    ViewWhole(m, s);
    ViewWhole(m1, s1);
    NothingUsed(s1);
    SliceToEnd(Bytes(m, s), k, all);
  }

  lemma NothingUsed(s: seq<BlockRef>)
    ensures UsedOk(s, 0)
  {
  }

  lemma SliceToEnd(a: seq<Byte>, k: nat, all: nat)
    requires k <= all == |a|
    ensures Eq(a[k..all], a[k..])
  {
    assert a[k..all] == a[k..];
  }

  lemma SteppedFacts(m0: Mem, s0: seq<BlockRef>, u0: nat, m: Mem, s: seq<BlockRef>, u: nat, k: nat)
    requires Stepped(m0, s0, u0, m, s, u, k)
    ensures Held(m, s) && UsedOk(s, u) && k <= |View(m0, s0, u0)| && Eq(View(m, s, u), View(m0, s0, u0)[k..])
  {
  }

  lemma ViewLength(m: Mem, s: seq<BlockRef>, u: nat)
    requires Sound(m, s) && UsedOk(s, u)
    ensures |View(m, s, u)| == Total(s) - u && u <= Total(s)
  {
    hide Bytes, View, Sound, Total, Slice, Piece;
    SoundLength(m, s);
    ViewWhole(m, s);
    if s == [] {
      NoBytes(m, s);
    } else {
      ViewParts(m, s, 0, u);
    }
  }

  /** A cut in two parts. */
  lemma TakeParts(a: seq<Byte>, b: seq<Byte>, x: seq<Byte>, y: seq<Byte>, k: nat, n: nat)
    requires k <= |a| && k <= n && Eq(b, a[k..]) && Eq(x, Take(a, k)) && Eq(y, Take(b, n - k))
    ensures Eq(x + y, Take(a, n)) && |x + y| == k + |y|
  {
    assert x + y == Take(a, n);
  }

  // ---- copy_to over several refs ----

  lemma CopyFirst(m: Mem, s: seq<BlockRef>, u: nat, k: nat, n: nat)
    requires Sound(m, s) && s != [] && u + k == s[0].length && k <= n
    ensures var x := Slice(m, Piece(s[0], u, k)); Eq(x + Take(BytesFrom(m, s, 1), n - k), Take(View(m, s, u), n))
  {
    hide Slice, Piece, BytesFrom, Take;
    var x := Slice(m, Piece(s[0], u, k));
    assert RefOk(m, s[0]) && k == s[0].length - u;
    SliceLength0(m, s[0], u, k);
    TakePastFirst(x, BytesFrom(m, s, 1), n, n - k);
  }

  lemma SliceLength0(m: Mem, r: BlockRef, u: nat, k: nat)
    requires MemOk(m) && RefOk(m, r) && u + k <= r.length
    ensures |Slice(m, Piece(r, u, k))| == k
  {
    SubSame(m[r.block].data, m[r.block].data, r.offset + u, k);
  }

  lemma CopyNext(m: Mem, s: seq<BlockRef>, i: nat, d: seq<Byte>, n: nat, k: nat)
    requires Sound(m, s) && i < |s| && k == if n < s[i].length then n else s[i].length
    ensures Eq((d + Slice(m, Head(s[i], k))) + Take(BytesFrom(m, s, i + 1), n - k), d + Take(BytesFrom(m, s, i), n))
  {
    var x, y := Slice(m, s[i]), BytesFrom(m, s, i + 1);
    assert RefOk(m, s[i]);
    SliceLength(m, s[i]);
    if n < s[i].length {
      TakeSlice(m, s[i], n);
      TakeInFirst(x, y, n);
      TakeNone(y);
      Nil(Take(x, n));
      Nil(d + Take(x, n));
      assert Head(s[i], k) == Piece(s[i], 0, n);
    } else {
      TakePastFirst(x, y, n, n - k);
      assert Head(s[i], k) == s[i];
      Assoc(d, x, Take(y, n - k));
    }
  }

  lemma CopyEnd(m: Mem, s: seq<BlockRef>, i: nat, d: seq<Byte>, n: nat)
    requires i <= |s| && (n == 0 || i == |s|)
    ensures Eq(d, d + Take(BytesFrom(m, s, i), n))
  {
    TakeNone(BytesFrom(m, s, i));
    Nil(d);
    if i == |s| {
      assert Take([], n) == [];
    }
  }

  // ---- cutn into another buffer ----

  ghost predicate NotFerried(m0: Mem, s0: seq<BlockRef>, u0: nat, t0: seq<BlockRef>,
    m: Mem, s: seq<BlockRef>, u: nat, t: seq<BlockRef>, k: nat)
  {
    || !Held2(m, s, t) || !UsedOk(s, u) || !Effect(m0, Claims(s0) + Claims(t0), m, Claims(s) + Claims(t))
    || !Recounted(m0, m)
    || k > |View(m0, s0, u0)| || Differ(View(m, s, u), View(m0, s0, u0)[k..])
    || Differ(Bytes(m, t), Bytes(m0, t0) + View(m0, s0, u0)[..k])
  }

  /** The cutter went `k` bytes on, and they are now at the back of another buffer. */
  ghost predicate Ferried(m0: Mem, s0: seq<BlockRef>, u0: nat, t0: seq<BlockRef>,
    m: Mem, s: seq<BlockRef>, u: nat, t: seq<BlockRef>, k: nat)
  {
    !NotFerried(m0, s0, u0, t0, m, s, u, t, k)
  }

  lemma FerriedNone(m: Mem, s: seq<BlockRef>, u: nat, t: seq<BlockRef>)
    requires Held2(m, s, t) && UsedOk(s, u)
    ensures Ferried(m, s, u, t, m, s, u, t, 0)
  {
    hide Recounted;
    CountRecounts(m, NULL);
    EffectRefl(m, Claims(s) + Claims(t));
    Whole(View(m, s, u));
    Empty(View(m, s, u), 0);
    Nil(Bytes(m, t));
  }

  lemma FerriedFacts(m0: Mem, s0: seq<BlockRef>, u0: nat, t0: seq<BlockRef>,
    m: Mem, s: seq<BlockRef>, u: nat, t: seq<BlockRef>, k: nat)
    requires Ferried(m0, s0, u0, t0, m, s, u, t, k)
    ensures Held2(m, s, t) && UsedOk(s, u) && k <= |View(m0, s0, u0)| && |View(m, s, u)| == |View(m0, s0, u0)| - k
  {
  }

  lemma FerriedTrans(m0: Mem, s0: seq<BlockRef>, u0: nat, t0: seq<BlockRef>,
    m1: Mem, s1: seq<BlockRef>, u1: nat, t1: seq<BlockRef>, k: nat,
    m2: Mem, s2: seq<BlockRef>, u2: nat, t2: seq<BlockRef>, l: nat, n: nat)
    requires Ferried(m0, s0, u0, t0, m1, s1, u1, t1, k) && Ferried(m1, s1, u1, t1, m2, s2, u2, t2, l) && n == k + l
    ensures Ferried(m0, s0, u0, t0, m2, s2, u2, t2, n)
  {
    hide Recounted;
    RecountedTrans(m0, m1, m2);
    EffectTrans(m0, Claims(s0) + Claims(t0), m1, Claims(s1) + Claims(t1), m2, Claims(s2) + Claims(t2));
    DropAgain(View(m0, s0, u0), k, l, n);
    TakeAgain(View(m0, s0, u0), k, l, n);
    Assoc(Bytes(m0, t0), View(m0, s0, u0)[..k], View(m1, s1, u1)[..l]);
  }

  lemma TakeAgain(a: seq<Byte>, k: nat, l: nat, n: nat)
    requires k <= |a| && l <= |a[k..]| && n == k + l
    ensures n <= |a| && Eq(a[..k] + a[k..][..l], a[..n])
  {
    assert a[..k] + a[k..][..l] == a[..n];
  }

  /** Part of the loaded ref is shared with the other buffer. */
  lemma FerriedPush(m: Mem, s: seq<BlockRef>, u: nat, t: seq<BlockRef>, k: nat)
    requires Held2(m, s, t) && s != [] && 0 < k && u + k <= s[0].length
    ensures var r := Piece(s[0], u, k);
      Fits(m, r) && Ferried(m, s, u, t, PushMem(m, t, r), s, u + k, PushBack(t, r), k)
  {
    hide View, Bytes, Held2, Effect, Shared, SameData, PushMem, PushBack, Slice, Sound, Fits, Recounted;
    var r := Piece(s[0], u, k);
    PushRecounts(m, t, r);
    var m1, t1 := PushMem(m, t, r), PushBack(t, r);
    PieceFits(m, s, t, u, k);
    SharePart(m, s, 0, u, k, t);
    ViewParts(m, s, u, k);
    ViewSame(m, m1, s, u + k);
    SharedParts(m, s, t, m1, t1, Slice(m, r));
    FrontIs(View(m, s, u), Slice(m, r), View(m, s, u + k), k);
    TakeIs(View(m, s, u), k);
  }

  lemma PieceFits(m: Mem, s: seq<BlockRef>, t: seq<BlockRef>, u: nat, k: nat)
    requires Held2(m, s, t) && s != [] && 0 < k && u + k <= s[0].length
    ensures Sound(m, s) && Fits(m, Piece(s[0], u, k))
  {
    assert RefOk(m, s[0]);
  }

  lemma TakeIs(a: seq<Byte>, k: nat)
    requires k <= |a|
    ensures Eq(Take(a, k), a[..k])
  {
  }

  lemma SharedParts(m0: Mem, s: seq<BlockRef>, t0: seq<BlockRef>, m: Mem, t: seq<BlockRef>, x: seq<Byte>)
    requires Shared(m0, s, t0, m, t, x)
    ensures Held2(m, s, t) && Effect(m0, Claims(s) + Claims(t0), m, Claims(s) + Claims(t))
      && Eq(Bytes(m, t), Bytes(m0, t0) + x)
  {
  }

  lemma ViewSame(m: Mem, m1: Mem, s: seq<BlockRef>, u: nat)
    requires SameData(m, m1) && Sound(m, s) && UsedOk(s, u)
    ensures Eq(View(m1, s, u), View(m, s, u))
  {
    if s != [] {
      assert RefOk(m, s[0]);
      FromSame(m, m1, s, 1);
    }
  }

  lemma {:induction false} FromSame(m: Mem, m1: Mem, s: seq<BlockRef>, k: nat)
    requires SameData(m, m1) && Sound(m, s) && k <= |s|
    ensures Eq(BytesFrom(m1, s, k), BytesFrom(m, s, k))
    decreases |s| - k
  {
    if k < |s| {
      assert RefOk(m, s[k]);
      FromSame(m, m1, s, k + 1);
    }
  }

  /** The cutter goes on beside the other buffer. */
  lemma FerriedBeside(m: Mem, s: seq<BlockRef>, u: nat, t: seq<BlockRef>, m1: Mem, s1: seq<BlockRef>, u1: nat)
    requires Held2(m, s, t) && Stepped(m, s, u, m1, s1, u1, 0)
    ensures Ferried(m, s, u, t, m1, s1, u1, t, 0)
  {
    hide Recounted;
    EffectFrame(m, Claims(s), m1, Claims(s1), Claims(t));
    BystanderBytes(m, Claims(s), m1, Claims(s1), t);
    Empty(View(m, s, u), 0);
    Nil(Bytes(m, t));
  }

  /** With nothing loaded the buffer moves the bytes itself. */
  lemma FerriedMoved(m: Mem, s: seq<BlockRef>, t: seq<BlockRef>, m1: Mem, s1: seq<BlockRef>, t1: seq<BlockRef>, k: nat)
    requires Moved(m, s, t, m1, s1, t1, k) && Recounted(m, m1)
    ensures Ferried(m, s, 0, t, m1, s1, 0, t1, k)
  {
    hide Recounted;
    ViewWhole(m, s);
    ViewWhole(m1, s1);
    NothingUsed(s1);
  }
}
