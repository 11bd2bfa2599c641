/** Handing the bytes of buffers to a writer, which takes a prefix of what it is offered. */
module Writers {
  import opened Chunks
  import opened Blocks
  import opened RefSteps
  import opened RefQueues
  import opened World
  import opened ChainLinks
  import opened Privacy
  import opened Runs
  import opened Refinement
  import opened Threads

  const IOV_MAX := 256
  const SIZE_HINT := 1024 * 1024

  /** IWriter. */
  class Writer {
    var errno: int                       // what its last error was
    ghost var calls: nat                 // how often it was asked
    ghost var offered: seq<seq<Byte>>    // what it was offered last
    ghost var last: int                  // its last answer
    ghost var taken: seq<Byte>           // all it took so far

    constructor ()
      ensures calls == 0 && offered == [] && last == 0 && taken == []
    {
      errno, calls, offered, last, taken := 0, 0, [], 0, [];
    }

    /** An error, or the length of the prefix that was taken. */
    method WriteV(vec: seq<seq<Byte>>) returns (nw: int)
      modifies this
      ensures nw <= Size(vec, |vec|) == |Flat(vec, |vec|)| && calls == old(calls) + 1 && offered == vec && last == nw
      ensures taken == old(taken) + if nw > 0 then Flat(vec, |vec|)[..nw] else []
    {
      nw := *;
      if nw > Size(vec, |vec|) {
        nw := -1;
      }
      if nw < 0 {
        errno := *;
      }
      FlatSize(vec, |vec|);
      calls, offered, last := calls + 1, vec, nw;
      taken := taken + if nw > 0 then Flat(vec, |vec|)[..nw] else [];
    }
  }

  lemma FlatSnoc(vec: seq<seq<Byte>>, x: seq<Byte>)
    ensures Eq(Flat(vec + [x], |vec| + 1), Flat(vec, |vec|) + x) && Size(vec + [x], |vec| + 1) == Size(vec, |vec|) + |x|
  {
    FlatSame(vec, vec + [x], |vec|);
  }

  lemma {:induction false} FlatSame(a: seq<seq<Byte>>, b: seq<seq<Byte>>, n: nat)
    requires n <= |a| && n <= |b| && forall i :: 0 <= i < n ==> a[i] == b[i]
    ensures Eq(Flat(a, n), Flat(b, n)) && Size(a, n) == Size(b, n)
  {
    if n > 0 {
      FlatSame(a, b, n - 1);
    }
  }

  lemma UptoOn(m: Mem, s: seq<BlockRef>, i: nat, vec: seq<seq<Byte>>)
    requires i < |s| && Eq(Flat(vec, |vec|), BytesUpto(m, s, i))
    ensures Eq(Flat(vec + [Slice(m, s[i])], |vec| + 1), BytesUpto(m, s, i + 1))
  {
    FlatSnoc(vec, Slice(m, s[i]));
  }

  lemma UptoStart(m: Mem, s: seq<BlockRef>)
    ensures Eq(Flat([], 0), BytesUpto(m, s, 0))
  {
  }

  /** The refs offered to a writer are a front part of the buffer. */
  lemma OfferedPrefix(m: Mem, s: seq<BlockRef>, i: nat, vec: seq<seq<Byte>>)
    requires i <= |s| && Eq(Flat(vec, |vec|), BytesUpto(m, s, i))
    ensures Flat(vec, |vec|) <= Bytes(m, s) && 0 <= Size(vec, |vec|) <= |Bytes(m, s)|
  {
    UptoFrom(m, s, i);
    FlatSize(vec, |vec|);
  }

  lemma TotalOn(s: seq<BlockRef>, i: nat)
    requires i < |s|
    ensures TotalUpto(s, i + 1) == TotalUpto(s, i) + s[i].length && TotalUpto(s, 0) == 0
  {
  }

  /** The length of what is offered is that of the refs, and all of them are all bytes. */
  lemma OfferedEnough(m: Mem, s: seq<BlockRef>, vec: seq<seq<Byte>>)
    requires Held(m, s) && |vec| <= |s| && Eq(Flat(vec, |vec|), BytesUpto(m, s, |vec|))
    ensures Size(vec, |vec|) == TotalUpto(s, |vec|) && TotalUpto(s, 0) == 0
    ensures |vec| == |s| ==> Eq(Flat(vec, |vec|), Bytes(m, s))
  {
    FlatSize(vec, |vec|);
    HeldSized(m, s);
    BytesUptoLength(m, s, |vec|);
  }

  lemma HeldSized(m: Mem, s: seq<BlockRef>)
    requires Held(m, s)
    ensures Sized(m, s)
  {
    BytesLength(m, s);
  }

  /** The iovecs for the writer: at most 256, and no more once there are `hint` bytes. */
  method OfferOne(t: Thread, i: nat, hint: nat) returns (vec: seq<seq<Byte>>)
    requires t.Valid() && t.HasBuffer(i) && IsBuffer(t.w, i)
    ensures |vec| <= IOV_MAX && Flat(vec, |vec|) <= Seen(t.w, i) && Size(vec, |vec|) <= |Seen(t.w, i)|
    ensures Eq(Flat(vec, |vec|), Seen(t.w, i)) || |vec| == IOV_MAX || (vec != [] && Size(vec, |vec|) >= hint)
    ensures Seen(t.w, i) == [] <==> vec == []
  {
    hide Thread.Separated, Thread.Shows, Counted, ChainsOk, RefQueue.Decode, Flat, Slice, BytesUpto, TotalUpto, Held,
      Size;
    t.At(i);
    HeldAt(t.w, i);
    ghost var s := RefsAt(t.w, i);
    UptoStart(t.h.m, s);
    TotalStart(s);
    var max := IovMax();
    var num := t.Queue(i).RefNum();
    var nref := if num < max then num else max;
    vec := [];
    var total := 0;
    while |vec| < nref && (vec == [] || total < hint)
      invariant |vec| <= nref && Eq(Flat(vec, |vec|), BytesUpto(t.h.m, s, |vec|)) && total == TotalUpto(s, |vec|)
    {
      var r := t.Queue(i).RefAt(|vec|);
      UptoOn(t.h.m, s, |vec|, vec);
      TotalOn(s, |vec|);
      vec := vec + [Slice(t.h.m, r)];
      total := total + r.length;
    }
    OfferedPrefix(t.h.m, s, |vec|, vec);
    OfferedEnough(t.h.m, s, vec);
    if s != [] {
      SomeBytes(t.h.m, s);
    }
  }

  lemma SomeBytes(m: Mem, s: seq<BlockRef>)
    requires Held(m, s) && s != []
    ensures Total(s) > 0
  {
    TotalAt(s, 0, |s|);
    assert RefOk(m, s[0]);
  }

  /** cut_into_writer: what the writer takes is what leaves the buffer. It is asked unless the buffer is empty. */
  method CutIntoWriter(t: Thread, i: nat, hint: nat, writer: Writer) returns (nw: int, ghost vec: seq<seq<Byte>>)
    requires t.Valid() && t.HasBuffer(i) && writer !in t.repr
    modifies t.repr, writer
    ensures t.Valid() && fresh(t.repr - old(t.repr)) && t.items == old(t.items) && Beside(old(t.w), i, t.w)
    ensures t.h.fails == old(t.h.fails)
    ensures |vec| <= 256 && Flat(vec, |vec|) <= Seen(old(t.w), i) && nw <= Size(vec, |vec|) <= |Seen(old(t.w), i)|
    ensures Eq(Flat(vec, |vec|), Seen(old(t.w), i)) || |vec| == 256 || (vec != [] && Size(vec, |vec|) >= hint)
    ensures if nw > 0 then Seen(t.w, i) == Seen(old(t.w), i)[nw..] else t.w == old(t.w)
    ensures writer.taken == old(writer.taken) + if nw > 0 then Seen(old(t.w), i)[..nw] else []
    ensures if Seen(old(t.w), i) == [] then nw == 0 && writer.calls == old(writer.calls)
      else writer.calls == old(writer.calls) + 1 && writer.offered == vec && writer.last == nw
  {
    hide Thread.Separated, Thread.Shows, Counted, ChainsOk, Seen, Flat, Size, Does;
    t.At(i);
    BesideSelf(t.w, i);
    var offer := OfferOne(t, i, hint);
    nw, vec := 0, offer;
    if offer == [] {
      return;
    }
    ghost var w := t.w;
    nw := writer.WriteV(offer);
    if nw > 0 {
      PrefixTake(Flat(vec, |vec|), Seen(w, i), nw);
      var popped := t.PopFront(i, nw);
      FrontBeside(w, i, nw, t.w);
    }
  }

  lemma PrefixTake(a: seq<Byte>, b: seq<Byte>, n: nat)
    requires a <= b && n <= |a|
    ensures a[..n] == b[..n]
  {
  }

  lemma BesideSelf(w: State, i: nat)
    requires i < |w.holders|
    ensures Beside(w, i, w)
  {
  }

  lemma TotalStart(s: seq<BlockRef>)
    ensures TotalUpto(s, 0) == 0
  {
  }

  function IovMax(): (n: nat)
    ensures n == IOV_MAX > 0
  {
    IOV_MAX
  }

  // ---- Several buffers ----

  ghost predicate Stranger(w: State, idx: seq<nat>) {
    exists k :: 0 <= k < |idx| && !IsBuffer(w, idx[k])
  }

  /** Different buffers. */
  ghost predicate Pieces(w: State, idx: seq<nat>) {
    !Stranger(w, idx) && World.Distinct(idx, |w.holders|)
  }

  function RefsOf(w: State, i: nat): seq<BlockRef> {
    if IsBuffer(w, i) then RefsAt(w, i) else []
  }

  /** The bytes of the buffers `idx[k..]` one after the other. */
  function Cat(w: State, idx: seq<nat>, k: nat): seq<Byte>
    requires k <= |idx|
    decreases |idx| - k
  {
    if k == |idx| then [] else Bytes(w.m, RefsOf(w, idx[k])) + Cat(w, idx, k + 1)
  }

  lemma SeenOf(w: State, i: nat)
    requires i < |w.holders|
    ensures Seen(w, i) == Bytes(w.m, RefsOf(w, i))
  {
    assert Bytes(w.m, []) == [];
  }

  /** Buffers that keep their bytes keep their concatenation. */
  lemma {:induction false} CatSame(w: State, v: State, idx: seq<nat>, k: nat)
    requires k <= |idx| && forall l :: k <= l < |idx| ==>
      Eq(Bytes(v.m, RefsOf(v, idx[l])), Bytes(w.m, RefsOf(w, idx[l])))
    ensures Eq(Cat(v, idx, k), Cat(w, idx, k))
    decreases |idx| - k
  {
    if k < |idx| {
      CatSame(w, v, idx, k + 1);
    }
  }

  lemma CatOn(w: State, idx: seq<nat>, k: nat)
    requires k < |idx| && idx[k] < |w.holders|
    ensures Eq(Cat(w, idx, k), Seen(w, idx[k]) + Cat(w, idx, k + 1))
  {
    SeenOf(w, idx[k]);
  }

  ghost predicate Disturbed(w: State, idx: seq<nat>, v: State) {
    |v.holders| != |w.holders| || exists i :: 0 <= i < |w.holders| && i !in idx && Seen(v, i) != Seen(w, i)
  }

  /** Every other buffer sees the bytes it saw. */
  ghost predicate OthersKept(w: State, idx: seq<nat>, v: State) {
    !Disturbed(w, idx, v)
  }

  lemma OthersOn(w0: State, w: State, idx: seq<nat>, k: nat, v: State)
    requires OthersKept(w0, idx, w) && k < |idx| && Beside(w, idx[k], v)
    ensures OthersKept(w0, idx, v)
  {
  }

  lemma OthersStart(w: State, idx: seq<nat>)
    ensures OthersKept(w, idx, w)
  {
  }

  // ---- Popping what was written ----

  /** The `k`-th buffer loses bytes in front. */
  lemma PopsCat(w: State, idx: seq<nat>, k: nat, v: State)
    requires k < |idx| && Pieces(w, idx) && Beside(w, idx[k], v)
    ensures Eq(Cat(v, idx, k + 1), Cat(w, idx, k + 1)) && forall l :: 0 <= l < k ==> Seen(v, idx[l]) == Seen(w, idx[l])
  {
    hide Bytes, RefsOf, Seen;
    forall l | k + 1 <= l < |idx|
      ensures Eq(Bytes(v.m, RefsOf(v, idx[l])), Bytes(w.m, RefsOf(w, idx[l])))
    {
      SeenOf(w, idx[l]);
      SeenOf(v, idx[l]);
    }
    CatSame(w, v, idx, k + 1);
  }

  ghost predicate NotPopping(w0: State, w: State, idx: seq<nat>, k: nat, left: nat, nw: nat) {
    || k > |idx| || nw > |Cat(w0, idx, 0)| || left > nw || left > |Cat(w, idx, k)|
    || Differ(Cat(w, idx, k), Cat(w0, idx, 0)[nw - left..])
    || exists l :: 0 <= l < k && l < |idx| && idx[l] < |w.holders| && |Seen(w, idx[l])| > 0
  }

  /** The first `k` buffers are empty, and `left` of the `nw` bytes are still to be popped. */
  ghost predicate Popping(w0: State, w: State, idx: seq<nat>, k: nat, left: nat, nw: nat) {
    !NotPopping(w0, w, idx, k, left, nw)
  }

  lemma PoppingStart(w: State, idx: seq<nat>, nw: nat)
    requires nw <= |Cat(w, idx, 0)|
    ensures Popping(w, w, idx, 0, nw, nw)
  {
    Whole(Cat(w, idx, 0));
  }

  /** A whole buffer is popped. */
  lemma PoppingOn(w0: State, w: State, idx: seq<nat>, k: nat, left: nat, nw: nat, v: State)
    requires Popping(w0, w, idx, k, left, nw) && k < |idx| && Pieces(w, idx) && Beside(w, idx[k], v)
    requires |Seen(w, idx[k])| < left && Seen(v, idx[k]) == []
    ensures Popping(w0, v, idx, k + 1, left - |Seen(w, idx[k])|, nw)
  {
    hide Bytes, RefsOf, Seen, Cat;
    PopsCat(w, idx, k, v);
    CatOn(w, idx, k);
    var x := Seen(w, idx[k]);
    DropOn(Cat(w0, idx, 0), nw - left, x, Cat(w, idx, k + 1), nw - (left - |x|));
  }

  /** The last part of a buffer is popped. */
  lemma PoppingEnds(w0: State, w: State, idx: seq<nat>, k: nat, left: nat, nw: nat, v: State)
    requires Popping(w0, w, idx, k, left, nw) && k < |idx| && Pieces(w, idx) && Beside(w, idx[k], v)
    requires left <= |Seen(w, idx[k])| && Seen(v, idx[k]) == Seen(w, idx[k])[left..]
    ensures nw <= |Cat(w0, idx, 0)| && Eq(Cat(v, idx, 0), Cat(w0, idx, 0)[nw..])
  {
    hide Bytes, RefsOf, Seen, Cat;
    PopsCat(w, idx, k, v);
    CatSkips(v, idx, k, 0);
    CatOn(w, idx, k);
    CatOn(v, idx, k);
    DropPart(Cat(w0, idx, 0), nw - left, Seen(w, idx[k]), Cat(w, idx, k + 1), left, |Seen(w, idx[k])|, nw);
    Rest(Seen(w, idx[k]), left);
  }

  lemma Rest(x: seq<Byte>, k: nat)
    requires k <= |x|
    ensures Eq(x[k..], x[k..|x|])
  {
    assert x[k..] == x[k..|x|];
  }

  lemma DropOn(a: seq<Byte>, p: nat, x: seq<Byte>, y: seq<Byte>, q: nat)
    requires p <= |a| && Eq(a[p..], x + y) && q == p + |x|
    ensures q <= |a| && Eq(y, a[q..])
  {
    Split(x, y);
    assert a[p..][|x|..] == a[q..];
  }

  lemma DropPart(a: seq<Byte>, p: nat, x: seq<Byte>, y: seq<Byte>, k: nat, all: nat, q: nat)
    requires p <= |a| && Eq(a[p..], x + y) && k <= all == |x| && q == p + k
    ensures q <= |a| && Eq(x[k..all] + y, a[q..])
  {
    assert (x + y)[k..] == x[k..all] + y;
    assert a[p..][k..] == a[q..];
  }

  lemma {:induction false} CatSkips(w: State, idx: seq<nat>, k: nat, l: nat)
    requires l <= k <= |idx| && forall j :: l <= j < k ==> idx[j] < |w.holders| && |Seen(w, idx[j])| == 0
    ensures Eq(Cat(w, idx, l), Cat(w, idx, k))
    decreases k - l
  {
    hide Bytes, RefsOf, Seen;
    if l < k {
      CatSkips(w, idx, k, l + 1);
      CatOn(w, idx, l);
      EmptyFirst(Seen(w, idx[l]), Cat(w, idx, l + 1));
    }
  }

  // ---- Offering the refs of several buffers ----

  lemma EmptyFirst(x: seq<Byte>, y: seq<Byte>)
    requires |x| == 0
    ensures Eq(x + y, y)
  {
    assert x + y == y;
  }

  ghost predicate NotOffered(w: State, idx: seq<nat>, i: nat, j: nat, vec: seq<seq<Byte>>) {
    || i > |idx| || (i < |idx| && j > |RefsOf(w, idx[i])|)
    || Differ(Flat(vec, |vec|) + Unoffered(w, idx, i, j), Cat(w, idx, 0))
  }

  /** All refs before the `j`-th ref of the `i`-th buffer are offered. */
  ghost predicate Offered(w: State, idx: seq<nat>, i: nat, j: nat, vec: seq<seq<Byte>>) {
    !NotOffered(w, idx, i, j, vec)
  }

  function Unoffered(w: State, idx: seq<nat>, i: nat, j: nat): seq<Byte> {
    if i >= |idx| then []
    else if j > |RefsOf(w, idx[i])| then []
    else BytesFrom(w.m, RefsOf(w, idx[i]), j) + Cat(w, idx, i + 1)
  }

  lemma OfferedStart(w: State, idx: seq<nat>)
    ensures Offered(w, idx, 0, 0, [])
  {
    if idx != [] {
      var s := RefsOf(w, idx[0]);
      UptoFrom(w.m, s, 0);
      Nil(BytesFrom(w.m, s, 0));
    }
    Nil(Unoffered(w, idx, 0, 0));
  }

  lemma OfferedOn(w: State, idx: seq<nat>, i: nat, j: nat, vec: seq<seq<Byte>>)
    requires Offered(w, idx, i, j, vec) && i < |idx| && j < |RefsOf(w, idx[i])|
    ensures Offered(w, idx, i, j + 1, vec + [Slice(w.m, RefsOf(w, idx[i])[j])])
  {
    var s := RefsOf(w, idx[i]);
    var x := Slice(w.m, s[j]);
    FlatSnoc(vec, x);
    hide Slice, Cat, RefsOf, Flat;
    Assoc(x, BytesFrom(w.m, s, j + 1), Cat(w, idx, i + 1));
    Assoc(Flat(vec, |vec|), x, Unoffered(w, idx, i, j + 1));
  }

  lemma OfferedNext(w: State, idx: seq<nat>, i: nat, vec: seq<seq<Byte>>)
    requires i < |idx| && Offered(w, idx, i, |RefsOf(w, idx[i])|, vec)
    ensures Offered(w, idx, i + 1, 0, vec)
  {
    Nil(Cat(w, idx, i + 1));
    if i + 1 < |idx| {
      var s := RefsOf(w, idx[i + 1]);
      UptoFrom(w.m, s, 0);
      Nil(BytesFrom(w.m, s, 0));
    }
  }

  lemma OfferedFront(w: State, idx: seq<nat>, i: nat, j: nat, vec: seq<seq<Byte>>)
    requires Offered(w, idx, i, j, vec)
    ensures Flat(vec, |vec|) <= Cat(w, idx, 0) && Size(vec, |vec|) <= |Cat(w, idx, 0)|
  {
    FlatSize(vec, |vec|);
  }

  // ---- cut_multiple_into_writer ----

  /** The buffers `idx` of a thread. */
  ghost predicate Among(t: Thread, idx: seq<nat>)
    reads t
  {
    (forall k :: 0 <= k < |idx| ==> t.HasBuffer(idx[k])) && forall k, l :: 0 <= k < l < |idx| ==> idx[k] != idx[l]
  }

  lemma AmongIs(t: Thread, idx: seq<nat>)
    requires t.Valid() && Among(t, idx)
    ensures Pieces(t.w, idx)
  {
    hide Thread.Separated, Thread.Shows, Counted, ChainsOk;
    forall k | 0 <= k < |idx|
      ensures IsBuffer(t.w, idx[k]) && idx[k] < |t.w.holders|
    {
      t.At(idx[k]);
    }
  }

  /** The iovecs for the writer. */
  method Offer(t: Thread, idx: seq<nat>) returns (vec: seq<seq<Byte>>)
    requires t.Valid() && Among(t, idx)
    ensures |vec| <= IOV_MAX && Flat(vec, |vec|) <= Cat(t.w, idx, 0) && Size(vec, |vec|) <= |Cat(t.w, idx, 0)|
    ensures |vec| < IOV_MAX ==> Eq(Flat(vec, |vec|), Cat(t.w, idx, 0))
  {
    hide Thread.Separated, Thread.Shows, Counted, ChainsOk, RefQueue.Decode, Flat, Size, Cat, Slice, Offered;
    var max := IovMax();
    vec := [];
    OfferedStart(t.w, idx);
    OfferedFront(t.w, idx, 0, 0, []);
    for i := 0 to |idx|
      invariant |vec| <= max && Flat(vec, |vec|) <= Cat(t.w, idx, 0) && Size(vec, |vec|) <= |Cat(t.w, idx, 0)|
      invariant |vec| < max ==> Offered(t.w, idx, i, 0, vec)
    {
      t.At(idx[i]);
      var nref := t.Queue(idx[i]).RefNum();
      var j := 0;
      while j < nref && |vec| < max
        invariant 0 <= j <= nref && |vec| <= max && Flat(vec, |vec|) <= Cat(t.w, idx, 0)
        invariant Size(vec, |vec|) <= |Cat(t.w, idx, 0)| && (|vec| < max ==> Offered(t.w, idx, i, j, vec))
      {
        var r := t.Queue(idx[i]).RefAt(j);
        OfferedOn(t.w, idx, i, j, vec);
        vec := vec + [Slice(t.h.m, r)];
        OfferedFront(t.w, idx, i, j + 1, vec);
        j := j + 1;
      }
      if |vec| < max {
        OfferedNext(t.w, idx, i, vec);
      }
    }
    if |vec| < max {
      OfferedAll(t.w, idx, vec);
    }
  }

  lemma OfferedAll(w: State, idx: seq<nat>, vec: seq<seq<Byte>>)
    requires Offered(w, idx, |idx|, 0, vec)
    ensures Eq(Flat(vec, |vec|), Cat(w, idx, 0))
  {
    Nil(Flat(vec, |vec|));
  }

  /** While bytes are left to be popped there is a buffer left to pop them from. */
  lemma PoppingFacts(w0: State, w: State, idx: seq<nat>, k: nat, left: nat, nw: nat)
    requires Popping(w0, w, idx, k, left, nw) && left > 0
    ensures k < |idx|
  {
  }

  /** Pops `nw` bytes from the front of the buffers taken together. */
  method PopPieces(t: Thread, idx: seq<nat>, nw: nat)
    requires t.Valid() && Among(t, idx) && 0 < nw <= |Cat(t.w, idx, 0)|
    modifies t.repr
    ensures t.Valid() && fresh(t.repr - old(t.repr)) && t.items == old(t.items) && OthersKept(old(t.w), idx, t.w)
    ensures t.h.fails == old(t.h.fails)
    ensures Eq(Cat(t.w, idx, 0), Cat(old(t.w), idx, 0)[nw..])
  {
    hide Thread.Separated, Thread.Shows, Counted, ChainsOk, Seen, Cat, Does, Popping, Pieces, OthersKept, Beside;
    ghost var w := t.w;
    OthersStart(w, idx);
    PoppingStart(w, idx, nw);
    var left: nat, i: nat := nw, 0;
    while left > 0
      invariant i <= |idx| && t.Valid() && fresh(t.repr - old(t.repr)) && t.items == old(t.items)
      invariant t.h.fails == old(t.h.fails)
      invariant OthersKept(w, idx, t.w)
      invariant left > 0 ==> Popping(w, t.w, idx, i, left, nw)
      invariant left == 0 ==> Eq(Cat(t.w, idx, 0), Cat(w, idx, 0)[nw..])
      decreases |idx| - i
    {
      PoppingFacts(w, t.w, idx, i, left, nw);
      AmongIs(t, idx);
      t.At(idx[i]);
      ghost var u := t.w;
      var popped := t.PopFront(idx[i], left);
      FrontBeside(u, idx[i], popped, t.w);
      OthersOn(w, u, idx, i, t.w);
      if popped == left {
        PoppingEnds(w, u, idx, i, left, nw, t.w);
      } else {
        PoppingOn(w, u, idx, i, left, nw, t.w);
      }
      left := left - popped;
      i := i + 1;
    }
  }

  /** cut_multiple_into_writer asks the writer, unless it is given no buffer or only one that is empty. */
  predicate Asks(w: State, idx: seq<nat>) {
    |idx| > 1 || (|idx| == 1 && Cat(w, idx, 0) != [])
  }

  /** cut_multiple_into_writer: what the writer takes and what is left make up the buffers. */
  method CutMultipleIntoWriter(t: Thread, idx: seq<nat>, writer: Writer) returns (nw: int, ghost vec: seq<seq<Byte>>)
    requires t.Valid() && Among(t, idx) && writer !in t.repr
    modifies t.repr, writer
    ensures t.Valid() && fresh(t.repr - old(t.repr)) && t.items == old(t.items) && OthersKept(old(t.w), idx, t.w)
    ensures t.h.fails == old(t.h.fails)
    ensures |vec| <= 256 && Flat(vec, |vec|) <= Cat(old(t.w), idx, 0)
    ensures nw <= Size(vec, |vec|) <= |Cat(old(t.w), idx, 0)|
    ensures Eq(Flat(vec, |vec|), Cat(old(t.w), idx, 0)) || |vec| == 256
      || (|idx| == 1 && vec != [] && Size(vec, |vec|) >= 1048576)
    ensures if Asks(old(t.w), idx)
      then writer.calls == old(writer.calls) + 1 && writer.offered == vec && writer.last == nw
      else writer.calls == old(writer.calls) && nw == 0
    ensures if nw > 0 then Eq(Cat(t.w, idx, 0), Cat(old(t.w), idx, 0)[nw..]) else t.w == old(t.w)
    ensures writer.taken == old(writer.taken) + if nw > 0 then Cat(old(t.w), idx, 0)[..nw] else []
  {
    hide Thread.Separated, Thread.Shows, Counted, ChainsOk, Seen, Cat, Flat, Size, Popping, Pieces, OthersKept, Beside;
    ghost var w := t.w;
    OthersStart(w, idx);
    OfferedStart(w, idx);
    OfferedFront(w, idx, 0, 0, []);
    nw, vec := 0, [];
    if |idx| == 0 {
      NoCat(w, idx);
      return;
    }
    if |idx| == 1 {
      t.At(idx[0]);
      AmongIs(t, idx);
      nw, vec := CutIntoWriter(t, idx[0], SIZE_HINT, writer);
      OnlyCat(w, idx);
      OthersOn(w, w, idx, 0, t.w);
      if nw > 0 {
        PoppingStart(w, idx, nw);
        PoppingEnds(w, w, idx, 0, nw, nw, t.w);
      }
      return;
    }
    var offer := Offer(t, idx);
    nw := writer.WriteV(offer);
    vec := offer;
    if nw <= 0 {
      return;
    }
    PrefixTake(Flat(vec, |vec|), Cat(w, idx, 0), nw);
    PopPieces(t, idx, nw);
  }

  lemma NoCat(w: State, idx: seq<nat>)
    requires |idx| == 0
    ensures Eq(Flat([], 0), Cat(w, idx, 0))
  {
  }

  lemma OnlyCat(w: State, idx: seq<nat>)
    requires |idx| == 1 && idx[0] < |w.holders|
    ensures Eq(Cat(w, idx, 0), Seen(w, idx[0]))
  {
    SeenOf(w, idx[0]);
    Nil(Seen(w, idx[0]));
  }
}
