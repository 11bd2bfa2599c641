/**
 RecordWriter over buffers that share blocks. The head of a record is reserved first and filled in when the size
 is known, which fails without a word when reserve could not name the place.
 */
module RecordWriters {
  import opened Chunks
  import opened Blocks
  import opened Octets
  import opened RecordFormat
  import opened Records
  import opened RefRuns
  import opened Growth
  import opened Appends
  import opened RefPlaces
  import opened Overwrites
  import opened World
  import opened ChainLinks
  import opened Privacy
  import opened Runs
  import opened Refinement
  import opened Reservations
  import opened Budgets
  import opened Threads
  import opened Writers

  // ---- What is seen while a record is written ----

  lemma PourBeside(w: State, i: nat, rs: seq<Round>, dry: bool, v: State)
    requires Counted(w) && Does(w, Op.Pour(i, rs, dry), v)
    ensures Beside(w, i, v) && Seen(v, i) == Seen(w, i) + Poured(rs, |rs|)
  {
    hide Counted, Grown, Seen, Poured;
    DoesRefines(w, Op.Pour(i, rs, dry), v);
    ViewBeside(w, i, v, Seen(w, i) + Poured(rs, |rs|));
  }

  lemma ShareBeside(w: State, j: nat, i: nat, v: State)
    requires Counted(w) && j < |w.holders| && Does(w, Op.ShareTo(j, i, 0, |Seen(w, j)|), v)
    ensures Beside(w, i, v) && Seen(v, i) == Seen(w, i) + Seen(w, j)
  {
    hide Counted, SharedFrom, Seen;
    DoesRefines(w, Op.ShareTo(j, i, 0, |Seen(w, j)|), v);
    assert Seen(w, j)[0..] == Seen(w, j) && Seen(w, j)[..|Seen(w, j)|] == Seen(w, j);
    ViewBeside(w, i, v, Seen(w, i) + Seen(w, j));
  }

  lemma RewriteBeside(w: State, i: nat, at: nat, x: seq<Byte>, v: State)
    requires Counted(w) && Does(w, Op.Rewrite(i, at, x), v)
    ensures Beside(w, i, v) && at + |x| <= |Seen(w, i)| && Seen(v, i) == Patched(Seen(w, i), at, x)
  {
    hide Counted, Private, Assigned, Seen, Patched;
    DoesRefines(w, Op.Rewrite(i, at, x), v);
    ViewBeside(w, i, v, Patched(Seen(w, i), at, x));
  }

  ghost predicate OffTrack(w: State, i: nat, v: State, out: seq<Byte>, area: Area) {
    !Beside(w, i, v) || Differ(Seen(v, i), Seen(w, i) + out) || !Reserved(v, i, area, |Seen(w, i)|, HEAD)
  }

  /** The buffer has got the bytes `out`, and the area reserved for the head is still its own. */
  ghost predicate OnTrack(w: State, i: nat, v: State, out: seq<Byte>, area: Area) {
    !OffTrack(w, i, v, out, area)
  }

  lemma OnReserve(w: State, i: nat, rs: seq<Round>, dry: bool, v: State, area: Area)
    requires Counted(w) && Counted(v) && Does(w, Op.Pour(i, rs, dry), v) && IsBuffer(v, i)
    requires AreaAt(area, RefsAt(v, i), |Seen(w, i)|, HEAD) && (area.Area? ==> |Poured(rs, |rs|)| == HEAD)
    ensures OnTrack(w, i, v, Poured(rs, |rs|), area)
  {
    hide Counted, Seen, Grown, AreaAt, Reserved, Poured, Beside;
    PourBeside(w, i, rs, dry, v);
    PourReserves(w, i, rs, dry, v, area, HEAD);
  }

  lemma OnTrackIs(w: State, i: nat, v: State, out: seq<Byte>, area: Area)
    requires OnTrack(w, i, v, out, area)
    ensures Beside(w, i, v) && Seen(v, i) == Seen(w, i) + out && Reserved(v, i, area, |Seen(w, i)|, HEAD)
  {
  }

  lemma TrackOn(w0: State, i: nat, w: State, out: seq<Byte>, area: Area, x: seq<Byte>, v: State)
    requires OnTrack(w0, i, w, out, area) && i < |w0.holders| && i < |w.holders| && Beside(w, i, v)
    requires Seen(v, i) == Seen(w, i) + x && Reserved(v, i, area, |Seen(w0, i)|, HEAD)
    ensures OnTrack(w0, i, v, out + x, area)
  {
    hide Seen, Reserved, Beside;
    OnTrackIs(w0, i, w, out, area);
    BesideTrans(w0, i, w, v);
    Assoc(Seen(w0, i), out, x);
  }

  lemma OnPour(w0: State, i: nat, w: State, out: seq<Byte>, area: Area, rs: seq<Round>, dry: bool, v: State)
    requires Counted(w) && OnTrack(w0, i, w, out, area) && Does(w, Op.Pour(i, rs, dry), v)
    ensures OnTrack(w0, i, v, out + Poured(rs, |rs|), area)
  {
    hide Counted, Seen, Grown, Reserved, Poured, OnTrack;
    OnTrackIs(w0, i, w, out, area);
    PourBeside(w, i, rs, dry, v);
    PourKeepsReserved(w, i, rs, dry, v, area, |Seen(w0, i)|, HEAD);
    TrackOn(w0, i, w, out, area, Poured(rs, |rs|), v);
  }

  lemma OnShare(w0: State, i: nat, w: State, out: seq<Byte>, area: Area, j: nat, v: State)
    requires Counted(w) && OnTrack(w0, i, w, out, area) && j < |w0.holders| && j < |w.holders| && j != i
    requires Does(w, Op.ShareTo(j, i, 0, |Seen(w, j)|), v)
    ensures OnTrack(w0, i, v, out + Seen(w0, j), area)
  {
    hide Counted, Seen, SharedFrom, Reserved, OnTrack;
    OnTrackIs(w0, i, w, out, area);
    ShareBeside(w, j, i, v);
    ShareKeepsReserved(w, j, i, 0, |Seen(w, j)|, v, area, |Seen(w0, i)|, HEAD);
    TrackOn(w0, i, w, out, area, Seen(w0, j), v);
  }

  // ---- Bytes of a record ----

  ghost predicate NotWritten(ms: seq<Meta>, k: nat, junk: seq<Byte>, out: seq<Byte>) {
    k > |ms| || |junk| != HEAD || |out| < HEAD
      || (AllSmall(ms) && Differ(out + WireFrom(ms, k), junk + WireFrom(ms, 0)))
  }

  /** The bytes `out` are a head that is still junk and the first `k` metas. */
  ghost predicate Written(ms: seq<Meta>, k: nat, junk: seq<Byte>, out: seq<Byte>) {
    !NotWritten(ms, k, junk, out)
  }

  lemma WrittenNone(ms: seq<Meta>, junk: seq<Byte>)
    requires |junk| == HEAD
    ensures Written(ms, 0, junk, junk)
  {
  }

  lemma WroteMeta(a: seq<Byte>, m: Meta, more: bool, b: seq<Byte>)
    requires Small(m)
    requires b == a + ([Octet(|m.name| % 256)] + m.name + Word4(if more then |m.data| + TOP else |m.data|)) + m.data
    ensures b == a + MetaBytes(m, more)
  {
    hide Octet, Word4;
  }

  lemma WroteOn(a: seq<Byte>, ms: seq<Meta>, k: nat, b: seq<Byte>)
    requires k < |ms| && AllSmall(ms) && b == a + MetaBytes(ms[k], k + 1 < |ms|)
    ensures b + WireFrom(ms, k + 1) == a + WireFrom(ms, k)
  {
    hide MetaBytes;
    WireNext(ms, k);
  }

  lemma WrittenNext(ms: seq<Meta>, k: nat, junk: seq<Byte>, out: seq<Byte>, next: seq<Byte>)
    requires k < |ms| && Written(ms, k, junk, out) && Small(ms[k]) && next == out + MetaBytes(ms[k], k + 1 < |ms|)
    ensures Written(ms, k + 1, junk, next)
  {
    hide WireFrom, MetaBytes;
    if AllSmall(ms) {
      WroteOn(out, ms, k, next);
    }
  }

  lemma WrittenAll(c: Content, junk: seq<Byte>, out: seq<Byte>)
    requires Written(c.metas, |c.metas|, junk, out) && AllSmall(c.metas)
    ensures out + c.payload == junk + Body(c) && |out + c.payload| == HEAD + |Body(c)|
  {
    assert out + [] == out;
  }

  /** The head that belongs before the body. */
  function HeadOf(c: Content): (x: seq<Byte>)
    requires Writable(c)
    ensures |x| == HEAD
  {
    RecordFormat.Head(|Body(c)|, c.metas != [])
  }

  lemma Filled(was: seq<Byte>, junk: seq<Byte>, c: Content)
    requires Writable(c) && |junk| == HEAD
    ensures Patched(was + (junk + Body(c)), |was|, HeadOf(c)) == was + Print(c)
    ensures was + (junk + Body(c)) == was + Print(c) <==> junk == HeadOf(c)
  {
    hide Body, RecordFormat.Head;
    var s := was + (junk + Body(c));
    assert s[|was| + HEAD..] == Body(c) && s[..|was|] == was;
    if s == was + Print(c) {
      assert junk == s[|was|..|was| + HEAD] == (was + (HeadOf(c) + Body(c)))[|was|..|was| + HEAD] == HeadOf(c);
    }
  }

  /** What a record that was written adds, and when that is its print. */
  lemma WrittenIs(c: Content, was: seq<Byte>, junk: seq<Byte>, now: seq<Byte>, has: bool)
    requires Writable(c) && |junk| == HEAD && now == was + if has then Print(c) else junk + Body(c)
    ensures (has ==> now == was + Print(c)) && (!has ==> now == was + (junk + Body(c)))
    ensures now == was + Print(c) <==> has || junk == HeadOf(c)
  {
    hide Print, Body, HeadOf;
    Filled(was, junk, c);
  }

  lemma HeadIs(c: Content, n: nat, word: seq<Byte>)
    requires AllSmall(c.metas) && n == |Body(c)| < TOP && word == Word4(if |c.metas| > 0 then n + TOP else n)
    ensures |word| == 4 && Magic() + word + [SizeChecksum(word)] == HeadOf(c)
  {
    hide Body, Word4, SizeChecksum, Magic;
  }

  lemma AreaIs(w: State, i: nat, area: Area, at: nat)
    requires Reserved(w, i, area, at, HEAD) && area.Area?
    ensures IsBuffer(w, i) && area.size == HEAD && area.index < |RefsAt(w, i)|
    ensures area.offset <= RefsAt(w, i)[area.index].length && StartOf(area, RefsAt(w, i)) == at
      && Private(w, i, at, HEAD)
    ensures at + HEAD <= |PlacesAt(w, i)|
  {
    hide Private;
    PrivateIs(w, i, at, HEAD, i);
  }

  lemma EmptyWritable()
    ensures Writable(Content([], [])) && Body(Content([], [])) == []
  {
  }

  ghost predicate NotReshaped(w: State, i: nat, v: State) {
    || v != w.(m := v.m) || !SameShape(w.m, v.m) || !IsBuffer(w, i)
    || exists p :: InMem(w.m, p) && p !in PlacesAt(w, i) && (!InMem(v.m, p) || Peek(v.m, p) != Peek(w.m, p))
  }

  /** Only bytes that buffer `i` refers to have changed. */
  ghost predicate Reshaped(w: State, i: nat, v: State) {
    !NotReshaped(w, i, v)
  }

  lemma ReshapedSelf(w: State, i: nat)
    requires IsBuffer(w, i)
    ensures Reshaped(w, i, w)
  {
    ShapeSelf(w.m);
  }

  lemma ReshapedSpends(w: State, i: nat, u: State, n: nat, v: State, cap: nat)
    requires Spends(w, i, u, n, cap) && Reshaped(u, i, v) && IsBuffer(u, i) && HasTls(u) && i != u.tls
    ensures Spends(w, i, v, n, cap)
  {
    hide Spends, SameShape;
    ShapeSpends(u, i, v, cap);
    SpendsTrans(w, i, u, n, v, 0, n, cap);
  }

  lemma PatchedLength(s: seq<Byte>, at: nat, x: seq<Byte>)
    ensures at + |x| <= |s| ==> |Patched(s, at, x)| == |s|
  {
  }

  lemma AssignReshapes(w: State, i: nat, at: nat, x: seq<Byte>)
    requires IsBuffer(w, i) && at + |x| <= |PlacesAt(w, i)|
    ensures Reshaped(w, i, w.(m := Assigned(w, i, at, x)))
  {
    hide InMem, Peek, Overwrite, SameShape;
    var ps := PlacesAt(w, i)[at..at + |x|];
    OverwriteShape(w.m, ps, x, |x|);
    forall p | InMem(w.m, p) && p !in PlacesAt(w, i)
      ensures InMem(Assigned(w, i, at, x), p) && Peek(Assigned(w, i, at, x), p) == Peek(w.m, p)
    {
      PeekMissed(w.m, ps, x, |x|, p);
    }
  }

  // ---- How many refs a record takes ----

  /** At most one for each byte that is copied, and those of the data. */
  function MetaCost(w: State, part: Part): nat {
    5 + |part.name| + |RefsOf(w, part.data)|
  }

  function MetasCost(w: State, parts: seq<Part>, n: nat): nat
    requires n <= |parts|
  {
    if n == 0 then 0 else MetasCost(w, parts, n - 1) + MetaCost(w, parts[n - 1])
  }

  function Cost(w: State, rec: Parts): nat {
    HEAD + MetasCost(w, rec.metas, |rec.metas|) + |RefsOf(w, rec.payload)|
  }

  /** A buffer is shared, whose refs are those it had in the state `w`. */
  lemma ShareCosts(w: State, i: nat, u: State, n: nat, cap: nat, j: nat, v: State)
    requires Counted(u) && Spends(w, i, u, n, cap) && j != i && j < |u.holders|
    requires Does(u, Op.ShareTo(j, i, 0, |Seen(u, j)|), v)
    ensures Spends(w, i, v, n + |RefsOf(w, j)|, cap)
  {
    hide Counted, SharedFrom, Seen, Spends;
    ShareSpends(u, j, i, 0, |Seen(u, j)|, v, cap);
    SpendsIs(w, i, u, n, cap);
    TlsStays2(u, i, j);
    SpendsTrans(w, i, u, n, v, |RefsAt(u, j)|, n + |RefsOf(w, j)|, cap);
  }

  lemma BodySize(c: Content)
    requires AllSmall(c.metas)
    ensures |Body(c)| == SizeUpto(c.metas, |c.metas|) + |c.payload|
  {
    SizeFrom(c.metas, 0);
  }

  class RecordWriter {
    const t: Thread
    const i: nat      // _buf

    constructor (t: Thread, i: nat)
      ensures this.t == t && this.i == i
    {
      this.t, this.i := t, i;
    }

    /** The buffers of the record are there, and none is that of the writer. */
    predicate Takes(rec: Parts)
      reads t
    {
      && t.HasBuffer(i) && t.HasBuffer(rec.payload) && rec.payload != i
      && forall k :: 0 <= k < |rec.metas| ==> t.HasBuffer(rec.metas[k].data) && rec.metas[k].data != i
    }

    /** What was appended since is dropped. */
    method Undo(oldSize: nat, ghost w: State, ghost out: seq<Byte>, ghost area: Area)
      requires t.Valid() && t.HasBuffer(i) && OnTrack(w, i, t.w, out, area) && i < |w.holders|
        && oldSize == |Seen(w, i)|
      modifies t.repr
      ensures t.Valid() && fresh(t.repr - old(t.repr)) && t.items == old(t.items) && t.h.fails == old(t.h.fails)
      ensures Beside(w, i, t.w) && Seen(t.w, i) == Seen(w, i)
    {
      hide Thread.Separated, Thread.Shows, Counted, ChainsOk, Seen, Does, OnTrack;
      t.At(i);
      OnTrackIs(w, i, t.w, out, area);
      ghost var u := t.w;
      var size := t.Length(i);
      var popped := t.PopBack(i, size - oldSize);
      CropBeside(u, i, size - oldSize, t.w);
      BesideTrans(w, i, u, t.w);
    }

    /** One meta: 0 if its bytes were appended, as far as memory went. */
    method WriteMeta(part: Part, more: bool, ghost w: State, ghost out: seq<Byte>, ghost area: Area, ghost n: nat)
      returns (rc: int, ghost out': seq<Byte>)
      requires t.Valid() && t.HasBuffer(i) && t.HasBuffer(part.data) && part.data != i && OnTrack(w, i, t.w, out, area)
      requires part.data < |w.holders| && Spends(w, i, t.w, n, t.h.cap)
      modifies t.repr
      ensures t.Valid() && fresh(t.repr - old(t.repr)) && t.items == old(t.items) && OnTrack(w, i, t.w, out', area)
      ensures t.h.fails >= old(t.h.fails)
      ensures var m := Meta(part.name, Seen(w, part.data));
        && rc == (if Small(m) then 0 else -1)
        && (rc == 0 && t.h.fails == old(t.h.fails) ==> out' == out + MetaBytes(m, more))
        && (rc == 0 ==> |out'| + (t.h.fails - old(t.h.fails)) <= |out| + 5 + |m.name| + |m.data|)
      ensures rc == 0 ==> Spends(w, i, t.w, n + MetaCost(w, part), t.h.cap)
    {
      hide Thread.Separated, Thread.Shows, Counted, ChainsOk, Seen, Does, OnTrack, Octet, Word4, Poured, MetaBytes,
        Spends, Standard, RefsOf;
      t.At(i);
      OnTrackIs(w, i, t.w, out, area);
      if |part.name| > MAX_NAME_SIZE {
        return -1, out;
      }
      var size := t.Length(part.data);
      if size > 0x7FFF_FFFF {
        return -1, out;
      }
      var tmp := if more then size + TOP else size;
      var metabuf := [Octet(|part.name| % 256)] + part.name + Word4(tmp);
      ghost var u := t.w;
      var ok, done, rs := t.AppendBytes(i, metabuf);
      OnPour(w, i, u, out, area, rs, ok == -1, t.w);
      PourSpends(u, i, rs, ok == -1, t.w, |metabuf|, t.h.cap);
      SpendsTrans(w, i, u, n, t.w, |metabuf|, n + |metabuf|, t.h.cap);
      ghost var out1 := out + Poured(rs, |rs|);
      t.At(i);
      OnTrackIs(w, i, t.w, out1, area);
      ghost var v := t.w;
      t.Append(i, part.data);
      OnShare(w, i, v, out1, area, part.data, t.w);
      ShareCosts(w, i, v, n + |metabuf|, t.h.cap, part.data, t.w);
      rc, out' := 0, out1 + Seen(w, part.data);
      if ok == 0 {
        assert metabuf[..done] == metabuf;
        WroteMeta(out, Meta(part.name, Seen(w, part.data)), more, out');
      }
    }

    /** The loop over metas. */
    method WriteMetas(parts: seq<Part>, ghost w: State, ghost ms: seq<Meta>, ghost junk: seq<Byte>, ghost area: Area)
      returns (rc: int, ghost out: seq<Byte>)
      requires t.Valid() && t.HasBuffer(i) && OnTrack(w, i, t.w, junk, area) && |ms| == |parts|
      requires forall k :: 0 <= k < |parts| ==>
        t.HasBuffer(parts[k].data) && parts[k].data != i && parts[k].data < |w.holders|
      requires forall k :: 0 <= k < |parts| ==> ms[k] == Meta(parts[k].name, Seen(w, parts[k].data))
      requires Spends(w, i, t.w, HEAD, t.h.cap)
      modifies t.repr
      ensures t.Valid() && fresh(t.repr - old(t.repr)) && t.items == old(t.items) && OnTrack(w, i, t.w, out, area)
      ensures t.h.fails >= old(t.h.fails) && rc == (if AllSmall(ms) then 0 else -1)
      ensures rc == 0 && t.h.fails == old(t.h.fails) && |junk| == HEAD ==> Written(ms, |ms|, junk, out)
      ensures parts == [] ==> t.w == old(t.w) && out == junk
      ensures rc == 0 ==> |out| + (t.h.fails - old(t.h.fails)) <= |junk| + SizeUpto(ms, |ms|)
      ensures rc == 0 ==> Spends(w, i, t.w, HEAD + MetasCost(w, parts, |parts|), t.h.cap)
    {
      hide Thread.Separated, Thread.Shows, Counted, ChainsOk, Seen, OnTrack, Written, Small, MetaBytes, Spends,
        MetaCost;
      out := junk;
      if |junk| == HEAD {
        WrittenNone(ms, junk);
      }
      for k := 0 to |parts|
        invariant t.Valid() && fresh(t.repr - old(t.repr)) && t.items == old(t.items) && OnTrack(w, i, t.w, out, area)
        invariant t.h.fails >= old(t.h.fails) && forall l :: 0 <= l < k ==> Small(ms[l])
        invariant t.h.fails == old(t.h.fails) && |junk| == HEAD ==> Written(ms, k, junk, out)
        invariant k == 0 ==> t.w == old(t.w) && out == junk
        invariant |out| + (t.h.fails - old(t.h.fails)) <= |junk| + SizeUpto(ms, k)
        invariant Spends(w, i, t.w, HEAD + MetasCost(w, parts, k), t.h.cap)
      {
        ghost var before := out;
        rc, out := WriteMeta(parts[k], k < |parts| - 1, w, out, area, HEAD + MetasCost(w, parts, k));
        if rc == -1 {
          return;
        }
        if t.h.fails == old(t.h.fails) && |junk| == HEAD {
          WrittenNext(ms, k, junk, before, out);
        }
      }
      rc := 0;
    }

    /** unsafe_assign of the head; its result is not looked at. */
    method FillHead(head: seq<Byte>, area: Area, ghost w: State, ghost out: seq<Byte>)
      requires t.Valid() && t.HasBuffer(i) && OnTrack(w, i, t.w, out, area) && i < |w.holders| && |head| == HEAD
      modifies t.repr
      ensures t.Valid() && fresh(t.repr - old(t.repr)) && t.items == old(t.items) && Beside(w, i, t.w)
      ensures t.h.fails == old(t.h.fails) && Reshaped(old(t.w), i, t.w)
      ensures area == Invalid ==> Seen(t.w, i) == Seen(w, i) + out
      ensures area.Area? ==> HEAD <= |out| && Seen(t.w, i) == Patched(Seen(w, i) + out, |Seen(w, i)|, head)
    {
      hide Thread.Separated, Thread.Shows, Counted, ChainsOk, Seen, OnTrack, Does, Patched, Reshaped;
      t.At(i);
      OnTrackIs(w, i, t.w, out, area);
      ghost var u := t.w;
      if area.Area? {
        AreaIs(u, i, area, |Seen(w, i)|);
      }
      var _ := t.UnsafeAssign(i, area, head);
      if area.Area? {
        RewriteBeside(u, i, |Seen(w, i)|, head, t.w);
        BesideTrans(w, i, u, t.w);
        AssignReshapes(u, i, |Seen(w, i)|, head);
      } else {
        ReshapedSelf(u, i);
      }
    }

    method AppendPayload(j: nat, ghost w: State, ghost out: seq<Byte>, ghost area: Area, ghost n: nat)
      requires t.Valid() && t.HasBuffer(i) && t.HasBuffer(j) && j != i && j < |w.holders|
      requires OnTrack(w, i, t.w, out, area) && Spends(w, i, t.w, n, t.h.cap)
      modifies t.repr
      ensures t.Valid() && fresh(t.repr - old(t.repr)) && t.items == old(t.items) && t.h.fails == old(t.h.fails)
      ensures OnTrack(w, i, t.w, out + Seen(w, j), area) && Spends(w, i, t.w, n + |RefsOf(w, j)|, t.h.cap)
      ensures Seen(w, j) == [] ==> t.w == old(t.w)
    {
      hide Thread.Separated, Thread.Shows, Counted, ChainsOk, Seen, OnTrack, Does, Spends, RefsOf;
      t.At(i);
      OnTrackIs(w, i, t.w, out, area);
      var length := t.Length(j);
      if length > 0 {
        ghost var u := t.w;
        t.Append(i, j);
        OnShare(w, i, u, out, area, j, t.w);
        ShareCosts(w, i, u, n, t.h.cap, j, t.w);
      } else {
        assert out + Seen(w, j) == out;
        SpendsMore(w, i, t.w, n, n + |RefsOf(w, j)|, t.h.cap);
      }
    }

    /** The payload, and the head once the size is known. `good` says that all was written so far. */
    method WriteRest(rec: Parts, oldSize: nat, area: Area, ghost w: State, ghost c: Content, ghost out0: seq<Byte>,
      ghost junk: seq<Byte>, ghost good: bool, ghost n: nat)
      returns (rc: int)
      requires t.Valid() && Takes(rec) && OnTrack(w, i, t.w, out0, area) && i < |w.holders| && oldSize == |Seen(w, i)|
      requires rec.payload < |w.holders| && c.payload == Seen(w, rec.payload) && |c.metas| == |rec.metas|
        && AllSmall(c.metas)
      requires good ==> Written(c.metas, |c.metas|, junk, out0) && |junk| == HEAD
      requires Spends(w, i, t.w, n, t.h.cap)
      modifies t.repr
      ensures t.Valid() && fresh(t.repr - old(t.repr)) && t.items == old(t.items) && Beside(w, i, t.w)
      ensures t.h.fails == old(t.h.fails) && (rc == -1 ==> Seen(t.w, i) == Seen(w, i))
      ensures rc == 0 && c.payload == [] ==> Reshaped(old(t.w), i, t.w)
      ensures good ==>
        && rc == (if |Body(c)| < TOP then 0 else -1)
        && (rc == 0 ==> Seen(t.w, i) == Seen(w, i) + if area.Area? then Print(c) else junk + Body(c))
      ensures rc == 0 ==> |Seen(t.w, i)| == |Seen(w, i)| + |out0| + |c.payload|
      ensures rc == 0 ==> Spends(w, i, t.w, n + |RefsOf(w, rec.payload)|, t.h.cap)
    {
      hide Thread.Separated, Thread.Shows, Counted, ChainsOk, Seen, OnTrack, Octet, Word4, Written, Does, Body,
        SizeWord, SizeChecksum, Magic, Patched, Reshaped, Spends, RefsOf;
      ghost var out, all := out0 + c.payload, n + |RefsOf(w, rec.payload)|;
      AppendPayload(rec.payload, w, out0, area, n);
      if good {
        WrittenAll(c, junk, out0);
      }
      t.At(i);
      OnTrackIs(w, i, t.w, out, area);
      var size := t.Length(i);
      var dataSize := size - oldSize - HEAD;
      if dataSize < 0 || dataSize > 0x7FFF_FFFF {   // a negative size_t is a huge one
        Undo(oldSize, w, out, area);
        return -1;
      }
      var word := Word4(if |rec.metas| > 0 then dataSize + TOP else dataSize);
      ghost var v := t.w;
      FillHead(Magic() + word + [SizeChecksum(word)], area, w, out);
      ReshapedSpends(w, i, v, all, t.w, t.h.cap);
      PatchedLength(Seen(w, i) + out, |Seen(w, i)|, Magic() + word + [SizeChecksum(word)]);
      if good {
        HeadIs(c, dataSize, word);
        Filled(Seen(w, i), junk, c);
      }
      rc := 0;
    }

    /** The nine bytes in front of the record. */
    method ReserveHead() returns (area: Area, ghost junk: seq<Byte>, ghost rs: seq<Round>)
      requires t.Valid() && t.HasBuffer(i)
      modifies t.repr
      ensures t.Valid() && fresh(t.repr - old(t.repr)) && t.items == old(t.items) && t.h.fails >= old(t.h.fails)
      ensures junk == Poured(rs, |rs|) && |junk| + (t.h.fails - old(t.h.fails)) <= HEAD
      ensures i < |old(t.w).holders| && OnTrack(old(t.w), i, t.w, junk, area)
        && Spends(old(t.w), i, t.w, HEAD, t.h.cap)
      ensures IsBuffer(old(t.w), i) && HasTls(old(t.w)) && Unwritten(SpotAt(old(t.w), i), rs, |rs|)
      ensures t.h.fails == old(t.h.fails) ==>
        && |junk| == HEAD && Does(old(t.w), Op.Pour(i, rs, false), t.w)
        && (area.Area? <==> HasArea(SpotAt(old(t.w), i), HEAD))
    {
      hide Thread.Separated, Thread.Shows, Counted, ChainsOk, Seen, OnTrack, HasArea, Poured, Does, SpotAt, Unwritten,
        Spends, Standard;
      t.At(i);
      ghost var w := t.w;
      var ok;
      area, ok, rs := t.Reserve(i, HEAD);
      junk := Poured(rs, |rs|);
      t.At(i);
      OnReserve(w, i, rs, !ok, t.w, area);
      PourSpends(w, i, rs, !ok, t.w, HEAD, t.h.cap);
    }

    /**
     * Appends the record to the buffer, or leaves it as it was. Unless malloc fails, the head is filled in exactly if
     * reserve could name its place; otherwise it stays what was in memory, which is what the rounds `rs` of reserve
     * have put. A record without content adds nothing else.
     */
    method WriteWithoutFlush(rec: Parts) returns (rc: int, ghost rs: seq<Round>, ghost mid: State)
      requires t.Valid() && Takes(rec)
      modifies t.repr
      ensures t.Valid() && fresh(t.repr - old(t.repr)) && t.items == old(t.items) && Beside(old(t.w), i, t.w)
      ensures t.h.fails >= old(t.h.fails) && (rc == -1 ==> Seen(t.w, i) == Seen(old(t.w), i))
      ensures forall k :: 0 <= k < |rec.metas| ==> rec.metas[k].data < |old(t.w).holders|
      ensures rec.payload < |old(t.w).holders| && HasTls(old(t.w)) && IsBuffer(old(t.w), i)
      ensures rc == 0 ==>
        var c := ContentAt(old(t.w), rec);
        && AllSmall(c.metas) && Spends(old(t.w), i, t.w, Cost(old(t.w), rec), t.h.cap)
        && |Seen(t.w, i)| + (t.h.fails - old(t.h.fails)) <= |Seen(old(t.w), i)| + HEAD + |Body(c)|
      ensures t.h.fails == old(t.h.fails) ==>
        var c, was, junk := ContentAt(old(t.w), rec), Seen(old(t.w), i), Poured(rs, |rs|);
        && |junk| == HEAD && Does(old(t.w), Op.Pour(i, rs, false), mid) && rc == (if Writable(c) then 0 else -1)
        && (rc == 0 && HasArea(SpotAt(old(t.w), i), HEAD) ==> Seen(t.w, i) == was + Print(c))
        && (rc == 0 && !HasArea(SpotAt(old(t.w), i), HEAD) ==> Seen(t.w, i) == was + (junk + Body(c)))
        && (rc == 0 ==> (Seen(t.w, i) == was + Print(c) <==> HasArea(SpotAt(old(t.w), i), HEAD) || junk == HeadOf(c)))
        && (c == Content([], []) ==> Reshaped(mid, i, t.w)) && Unwritten(SpotAt(old(t.w), i), rs, |rs|)
    {
      hide Thread.Valid, Seen, OnTrack, Octet, Word4, Written, HasArea, Poured, Does, Reshaped, Body, SpotAt, Unwritten,
        Spends, RefsOf, MetasCost, SizeUpto, HeadOf, Print;
      t.At(i);
      ghost var w, c := t.w, ContentAt(t.w, rec);
      var oldSize := t.Length(i);
      var area;
      ghost var junk;
      area, junk, rs := ReserveHead();
      mid := t.w;
      ghost var out;
      rc, out := WriteMetas(rec.metas, w, c.metas, junk, area);
      if rc == -1 {
        Undo(oldSize, w, out, area);
        return;
      }
      EmptyWritable();
      ghost var good := t.h.fails == old(t.h.fails);
      rc := WriteRest(rec, oldSize, area, w, c, out, junk, good, HEAD + MetasCost(w, rec.metas, |rec.metas|));
      BodySize(c);
      if good && rc == 0 {
        WrittenIs(c, Seen(w, i), junk, Seen(t.w, i), area.Area?);
      }
    }

    /** Hands the buffer to the writer until that takes no more or all was taken. */
    method Flush(writer: Writer) returns (rc: int)
      requires t.Valid() && t.HasBuffer(i) && writer !in t.repr
      modifies t.repr, writer
      ensures t.Valid() && fresh(t.repr - old(t.repr)) && t.items == old(t.items) && Beside(old(t.w), i, t.w)
      ensures t.h.fails == old(t.h.fails)
      ensures old(writer.taken) <= writer.taken
        && old(writer.taken) + Seen(old(t.w), i) == writer.taken + Seen(t.w, i)
      ensures Seen(t.w, i) == [] || writer.last <= 0
      ensures writer.taken != old(writer.taken) || Seen(old(t.w), i) == [] ==> rc == 0
      ensures writer.taken == old(writer.taken) && Seen(old(t.w), i) != [] ==>
        rc == if writer.last == 0 then 11 else writer.errno
    {
      hide Thread.Separated, Thread.Shows, Counted, ChainsOk, Seen, Flat, Size;
      t.At(i);
      ghost var w, had := t.w, writer.taken;
      BesideSelf(w, i);
      var total := 0;
      while true
        invariant t.Valid() && fresh(t.repr - old(t.repr)) && t.items == old(t.items) && Beside(w, i, t.w)
        invariant t.h.fails == old(t.h.fails) && writer !in t.repr
        invariant had <= writer.taken && had + Seen(w, i) == writer.taken + Seen(t.w, i)
        invariant |writer.taken| == |had| + total
        decreases |Seen(t.w, i)|
      {
        ghost var u, took := t.w, writer.taken;
        var nw, vec := CutIntoWriter(t, i, 1024 * 1024, writer);
        BesideTrans(w, i, u, t.w);
        if nw > 0 {
          total := total + nw;
          Taken(had + Seen(w, i), took, Seen(u, i), nw);
        } else {
          if total > 0 {
            return 0;
          }
          if nw == 0 {
            var size := t.Length(i);
            return if size == 0 then 0 else EAGAIN;
          }
          return writer.errno;
        }
      }
    }
  }

  const EAGAIN := 11   // on Linux

  lemma Taken(all: seq<Byte>, a: seq<Byte>, b: seq<Byte>, n: nat)
    requires all == a + b && n <= |b|
    ensures all == (a + b[..n]) + b[n..]
  {
  }

  // ---- An input for which the head is not filled in ----

  const BIG_BLOCK := 65504   // what a block of 65536 bytes holds

  /** All the buffer has are the first `n` bytes of the first block of the chain, in one ref; `d` is behind them. */
  predicate InBlock(p: Spot, b: BlockId, n: nat, d: seq<Byte>) {
    && p.t != [] && p.t[0] == b && b in p.m && p.m[b].size == n <= p.m[b].cap == |p.m[b].data| == BIG_BLOCK == |d|
    && p.m[b].data[n..] == d[n..] && p.s == if n == 0 then [] else [BlockRef(0, n, b)]
  }

  lemma RoundInBlock(p: Spot, b: BlockId, n: nat, d: seq<Byte>, r: Round)
    requires InBlock(p, b, n, d) && n < BIG_BLOCK && CanRound(p, r)
    ensures n + |r.chunk| <= BIG_BLOCK && InBlock(OneRound(p, r), b, n + |r.chunk|, d)
    ensures Idle(p, r) ==> r.chunk == d[n..n + |r.chunk|]
  {
    var k := n + |r.chunk|;
    assert OneRound(p, r).m[b].data[k..] == p.m[b].data[n..][|r.chunk|..];
    assert d[k..] == d[n..][|r.chunk|..] && d[n..k] == d[n..][..|r.chunk|];
    assert p.m[b].data[n..k] == p.m[b].data[n..][..|r.chunk|];
  }

  lemma {:induction false} PouredLength(rs: seq<Round>, k: nat, n: nat)
    requires k <= n <= |rs|
    ensures |Poured(rs, k)| <= |Poured(rs, n)|
  {
    if k < n {
      PouredLength(rs, k, n - 1);
    }
  }

  /** As long as it has room, whatever is appended goes into that block. */
  lemma {:induction false} GrowInBlock(p: Spot, b: BlockId, n: nat, d: seq<Byte>, rs: seq<Round>, k: nat)
    requires InBlock(p, b, n, d) && k <= |rs| && CanGrow(p, rs, k) && n + |Poured(rs, k)| <= BIG_BLOCK == |d|
    ensures InBlock(Grow(p, rs, k), b, n + |Poured(rs, k)|, d)
    ensures Unwritten(p, rs, k) ==> Eq(Poured(rs, k), d[n..n + |Poured(rs, k)|])
  {
    hide InBlock, OneRound, CanRound, Idle;
    if k == 0 {
      assert d[n..n] == [];
    } else {
      var q, m := Grow(p, rs, k - 1), n + |Poured(rs, k - 1)|;
      PouredLength(rs, k - 1, k);
      GrowInBlock(p, b, n, d, rs, k - 1);
      ChunkLength(q, rs[k - 1]);
      RoundInBlock(q, b, m, d, rs[k - 1]);
      assert d[n..m] + d[m..m + |rs[k - 1].chunk|] == d[n..m + |rs[k - 1].chunk|];
    }
  }

  lemma ChunkLength(p: Spot, r: Round)
    requires CanRound(p, r)
    ensures |r.chunk| > 0
  {
  }

  /** The place of a head can be named as long as it is among the first 32768 bytes: for 3641 records. */
  lemma InBlockArea(p: Spot, b: BlockId, n: nat, d: seq<Byte>)
    requires InBlock(p, b, n, d) && n < BIG_BLOCK
    ensures HasArea(p, HEAD) <==> n <= 32767
  {
  }

  lemma ReshapedInBlock(w: State, i: nat, v: State, b: BlockId, n: nat, d: seq<Byte>)
    requires Reshaped(w, i, v) && IsBuffer(w, i) && HasTls(w) && InBlock(SpotAt(w, i), b, n, d)
    ensures IsBuffer(v, i) && HasTls(v) && InBlock(SpotAt(v, i), b, n, d)
  {
    assert v.m[b].(data := w.m[b].data) == w.m[b] && |v.m[b].data| == |w.m[b].data|;
    forall k: nat | n <= k < BIG_BLOCK
      ensures v.m[b].data[k] == w.m[b].data[k]
    {
      OwnPlaces(RefsAt(w, i), b, n, k);
      assert InMem(w.m, Place(b, k)) && Peek(v.m, Place(b, k)) == Peek(w.m, Place(b, k));
    }
  }

  lemma OwnPlaces(s: seq<BlockRef>, b: BlockId, n: nat, k: nat)
    requires s == (if n == 0 then [] else [BlockRef(0, n, b)]) && n <= k
    ensures Place(b, k) !in Places(s)
  {
    if n > 0 {
      SpanIs(s[0], n);
      assert Places(s) == PlacesUpto(s, 0) + Span(s[0]);
    }
  }

  /** The bytes of one more record without content are in the block, whether its head was filled in or not. */
  lemma EmptyInBlock(w: State, i: nat, rs: seq<Round>, mid: State, v: State, b: BlockId, n: nat, d: seq<Byte>)
    requires Does(w, Op.Pour(i, rs, false), mid) && |Poured(rs, |rs|)| == HEAD && Reshaped(mid, i, v)
    requires InBlock(SpotAt(w, i), b, n, d) && n + HEAD <= BIG_BLOCK == |d| && Unwritten(SpotAt(w, i), rs, |rs|)
    ensures IsBuffer(v, i) && HasTls(v) && InBlock(SpotAt(v, i), b, n + HEAD, d)
    ensures Poured(rs, |rs|) == d[n..n + HEAD]
  {
    hide InBlock, Grow, Poured, Reshaped, Unwritten;
    GrowInBlock(SpotAt(w, i), b, n, d, rs, |rs|);
    ReshapedInBlock(mid, i, v, b, n + HEAD, d);
  }

  function Repeat(x: seq<Byte>, n: nat): seq<Byte> {
    if n == 0 then [] else Repeat(x, n - 1) + x
  }

  /** Up to 3641 records without content in a fresh block, without a flush: all have their heads. */
  method WriteEmpties(out: RecordWriter, rec: Parts, n: nat, ghost b: BlockId, ghost d: seq<Byte>)
    requires out.t.Valid() && out.Takes(rec) && IsBuffer(out.t.w, out.i) && HasTls(out.t.w)
    requires rec.metas == [] && rec.payload < |out.t.w.holders| && Seen(out.t.w, rec.payload) == []
    requires InBlock(SpotAt(out.t.w, out.i), b, 0, d) && n <= 3641 && |d| == BIG_BLOCK
    modifies out.t.repr
    ensures out.t.Valid() && fresh(out.t.repr - old(out.t.repr)) && out.t.items == old(out.t.items)
    ensures out.t.h.fails >= old(out.t.h.fails) && Beside(old(out.t.w), out.i, out.t.w)
    ensures out.t.h.fails == old(out.t.h.fails) ==>
      && IsBuffer(out.t.w, out.i) && HasTls(out.t.w) && InBlock(SpotAt(out.t.w, out.i), b, n * HEAD, d)
      && Seen(out.t.w, out.i) == Seen(old(out.t.w), out.i) + Repeat(HeadOf(Content([], [])), n)
  {
    hide Thread.Separated, Thread.Shows, Counted, ChainsOk, Seen, Does, InBlock, HasArea, SpotAt, HeadOf, Poured,
      Reshaped, Print, Body, Unwritten;
    ghost var w := out.t.w;
    EmptyWritable();
    BesideSelf(w, out.i);
    for k := 0 to n
      invariant out.t.Valid() && fresh(out.t.repr - old(out.t.repr)) && out.t.items == old(out.t.items)
      invariant out.t.h.fails >= old(out.t.h.fails) && Beside(w, out.i, out.t.w)
      invariant out.t.h.fails == old(out.t.h.fails) ==>
        && IsBuffer(out.t.w, out.i) && HasTls(out.t.w) && InBlock(SpotAt(out.t.w, out.i), b, k * HEAD, d)
        && Seen(out.t.w, out.i) == Seen(w, out.i) + Repeat(HeadOf(Content([], [])), k)
    {
      ghost var u := out.t.w;
      var rc, rs, mid := out.WriteWithoutFlush(rec);
      BesideTrans(w, out.i, u, out.t.w);
      if out.t.h.fails == old(out.t.h.fails) {
        EmptyContent(u, rec);
        InBlockArea(SpotAt(u, out.i), b, k * HEAD, d);
        EmptyInBlock(u, out.i, rs, mid, out.t.w, b, k * HEAD, d);
        EmptyPrint();
        OneMore(Seen(w, out.i), HeadOf(Content([], [])), k);
      }
    }
  }

  lemma EmptyContent(w: State, rec: Parts)
    requires rec.metas == [] && rec.payload < |w.holders| && Seen(w, rec.payload) == []
    ensures ContentAt(w, rec) == Content([], [])
  {
  }

  lemma EmptyPrint()
    ensures Writable(Content([], [])) && Print(Content([], [])) == HeadOf(Content([], []))
  {
    EmptyWritable();
  }

  lemma OneMore(a: seq<Byte>, x: seq<Byte>, k: nat)
    ensures (a + Repeat(x, k)) + x == a + Repeat(x, k + 1)
  {
  }

  /** The next call returns 0, and in place of a head there are the nine bytes `d` that memory held. */
  method LoseHead(out: RecordWriter, rec: Parts, ghost b: BlockId, ghost d: seq<Byte>) returns (rc: int)
    requires out.t.Valid() && out.Takes(rec) && IsBuffer(out.t.w, out.i) && HasTls(out.t.w)
    requires rec.metas == [] && rec.payload < |out.t.w.holders| && Seen(out.t.w, rec.payload) == []
    requires InBlock(SpotAt(out.t.w, out.i), b, 0, d) && |d| == BIG_BLOCK
    modifies out.t.repr
    ensures out.t.Valid() && Beside(old(out.t.w), out.i, out.t.w)
    ensures out.t.h.fails == old(out.t.h.fails) ==>
      && rc == 0
      && Seen(out.t.w, out.i)
        == (Seen(old(out.t.w), out.i) + Repeat(HeadOf(Content([], [])), 3641)) + d[3641 * HEAD..3642 * HEAD]
  {
    hide Thread.Separated, Thread.Shows, Counted, ChainsOk, Seen, Does, InBlock, HasArea, SpotAt, HeadOf, Poured,
      Reshaped, Print, Body, Repeat, Unwritten;
    ghost var w := out.t.w;
    EmptyWritable();
    WriteEmpties(out, rec, 3641, b, d);
    ghost var u := out.t.w;
    ghost var rs, mid;
    rc, rs, mid := out.WriteWithoutFlush(rec);
    BesideTrans(w, out.i, u, out.t.w);
    if out.t.h.fails == old(out.t.h.fails) {
      EmptyContent(u, rec);
      InBlockArea(SpotAt(u, out.i), b, 3641 * HEAD, d);
      EmptyInBlock(u, out.i, rs, mid, out.t.w, b, 3641 * HEAD, d);
    }
  }
}
