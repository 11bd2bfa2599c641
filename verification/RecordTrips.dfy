/** Records that are written to a buffer, one after the other, and read back from it. */
module RecordTrips {
  import opened Chunks
  import opened RecordFormat
  import opened Growth
  import opened Appends
  import opened World
  import opened ChainLinks
  import opened Privacy
  import opened Runs
  import opened Refinement
  import opened Budgets
  import opened Threads
  import opened Cursors
  import opened Records
  import opened Writers
  import opened RecordWriters
  import opened RecordIO

  // ---- Writing ----

  /** The places of all buffers of the records are those of holders. */
  predicate Placed(recs: seq<Parts>, n: nat) {
    forall k :: 0 <= k < |recs| ==>
      recs[k].payload < n && forall l :: 0 <= l < |recs[k].metas| ==> recs[k].metas[l].data < n
  }

  ghost function Contents(w: State, recs: seq<Parts>): (cs: seq<Content>)
    requires Placed(recs, |w.holders|)
    ensures |cs| == |recs| && forall k :: 0 <= k < |recs| ==> cs[k] == ContentAt(w, recs[k])
  {
    seq(|recs|, k requires 0 <= k < |recs| => ContentAt(w, recs[k]))
  }

  predicate AllWritable(cs: seq<Content>) {
    forall k :: 0 <= k < |cs| ==> Writable(cs[k])
  }

  /** Nine bytes for every record. */
  predicate Heads(cs: seq<Content>, heads: seq<seq<Byte>>) {
    |heads| == |cs| && AllWritable(cs) && forall k :: 0 <= k < |heads| ==> |heads[k]| == HEAD
  }

  /** The first `n` bodies, each behind its nine bytes. */
  function FramesUpto(cs: seq<Content>, heads: seq<seq<Byte>>, n: nat): seq<Byte>
    requires Heads(cs, heads) && n <= |cs|
  {
    if n == 0 then [] else FramesUpto(cs, heads, n - 1) + (heads[n - 1] + Body(cs[n - 1]))
  }

  /** The nine bytes are the heads of the records. */
  predicate Headed(cs: seq<Content>, heads: seq<seq<Byte>>)
    requires Heads(cs, heads)
  {
    forall k :: 0 <= k < |cs| ==> heads[k] == HeadOf(cs[k])
  }

  /** At most so many refs are taken by the first `n` records. */
  function CostUpto(w: State, recs: seq<Parts>, n: nat): nat
    requires n <= |recs|
  {
    if n == 0 then 0 else CostUpto(w, recs, n - 1) + Cost(w, recs[n - 1])
  }

  /**
   * Blocks are small enough and there are few enough refs for an area for each head: when the last record is written
   * the buffer can have no more refs than an area can count.
   */
  ghost predicate Ample(w: State, i: nat, recs: seq<Parts>, cap: nat) {
    && IsBuffer(w, i) && HasTls(w) && cap <= 32768 && Low(w.m, Tls(w), 32768)
    && (recs != [] ==> |RefsAt(w, i)| + CostUpto(w, recs, |recs| - 1) <= 524287)
  }

  lemma {:induction false} CostGrows(w: State, recs: seq<Parts>, k: nat, n: nat)
    requires k <= n <= |recs|
    ensures CostUpto(w, recs, k) <= CostUpto(w, recs, n)
  {
    hide Cost;
    if k < n {
      CostGrows(w, recs, k, n - 1);
    }
  }

  /** What the first records took leaves an area for the head of the next one. */
  lemma AmpleHas(w: State, i: nat, recs: seq<Parts>, cap: nat, k: nat, u: State)
    requires Ample(w, i, recs, cap) && k < |recs| && Spends(w, i, u, CostUpto(w, recs, k), cap)
    ensures IsBuffer(u, i) && HasTls(u) && HasArea(SpotAt(u, i), HEAD)
  {
    hide Low, CostUpto, Spends, HasArea, Continues;
    CostGrows(w, recs, k, |recs| - 1);
    SpendsIs(w, i, u, CostUpto(w, recs, k), cap);
    AreaExact(SpotAt(u, i), HEAD);
  }

  /** A record takes as many refs as it would have taken in the beginning. */
  lemma {:induction false} SameMetasCost(w: State, u: State, ps: seq<Part>, n: nat)
    requires n <= |ps| && forall k :: 0 <= k < |ps| ==> RefsOf(u, ps[k].data) == RefsOf(w, ps[k].data)
    ensures MetasCost(u, ps, n) == MetasCost(w, ps, n)
  {
    if n > 0 {
      SameMetasCost(w, u, ps, n - 1);
    }
  }

  lemma SpendsStart(w: State, i: nat, recs: seq<Parts>, cap: nat)
    requires IsBuffer(w, i) && HasTls(w)
    ensures Spends(w, i, w, CostUpto(w, recs, 0), cap)
  {
    SpendsNone(w, i, cap);
  }

  lemma SpendsOn(w: State, i: nat, u: State, recs: seq<Parts>, k: nat, v: State, cap: nat)
    requires k < |recs| && Spends(w, i, u, CostUpto(w, recs, k), cap) && Spends(u, i, v, Cost(u, recs[k]), cap)
    requires IsBuffer(w, recs[k].payload) && recs[k].payload != i
    requires forall l :: 0 <= l < |recs[k].metas| ==> IsBuffer(w, recs[k].metas[l].data) && recs[k].metas[l].data != i
    ensures Spends(w, i, v, CostUpto(w, recs, k + 1), cap)
  {
    hide Spends;
    var n := CostUpto(w, recs, k);
    SpendsIs(w, i, u, n, cap);
    SameMetasCost(w, u, recs[k].metas, |recs[k].metas|);
    SpendsTrans(w, i, u, n, v, Cost(u, recs[k]), n + Cost(w, recs[k]), cap);
  }

  lemma SameContent(w: State, i: nat, u: State, rec: Parts)
    requires Beside(w, i, u) && rec.payload < |w.holders| && rec.payload != i
    requires forall l :: 0 <= l < |rec.metas| ==> rec.metas[l].data < |w.holders| && rec.metas[l].data != i
    ensures ContentAt(u, rec) == ContentAt(w, rec)
  {
  }

  ghost predicate NotWrote(was: seq<Byte>, cs: seq<Content>, k: nat, heads: seq<seq<Byte>>, ample: bool,
    now: seq<Byte>)
  {
    || k > |cs| || !Heads(cs[..k], heads) || Differ(now, was + FramesUpto(cs[..k], heads, k))
    || (ample && !Headed(cs[..k], heads))
  }

  /** The first `k` records are written, with their heads if there were areas for them. */
  ghost predicate Wrote(was: seq<Byte>, cs: seq<Content>, k: nat, heads: seq<seq<Byte>>, ample: bool, now: seq<Byte>) {
    !NotWrote(was, cs, k, heads, ample, now)
  }

  lemma WroteNone(was: seq<Byte>, cs: seq<Content>, ample: bool)
    ensures Wrote(was, cs, 0, [], ample, was)
  {
    Nil(was);
  }

  lemma WroteMore(was: seq<Byte>, cs: seq<Content>, k: nat, heads: seq<seq<Byte>>, ample: bool, now: seq<Byte>,
    head: seq<Byte>, next: seq<Byte>)
    requires Wrote(was, cs, k, heads, ample, now) && k < |cs| && Writable(cs[k]) && |head| == HEAD
    requires next == now + (head + Body(cs[k])) && (ample ==> head == HeadOf(cs[k]))
    ensures Wrote(was, cs, k + 1, heads + [head], ample, next)
  {
    hide Body, HeadOf;
    var c, h := cs[..k + 1], heads + [head];
    assert c[..k] == cs[..k] && h[..k] == heads;
    FramesSame(cs[..k], heads, c, h, k);
    Assoc(was, FramesUpto(c, h, k), head + Body(cs[k]));
  }

  lemma {:induction false} FramesSame(cs: seq<Content>, heads: seq<seq<Byte>>, ds: seq<Content>, hs: seq<seq<Byte>>,
    n: nat)
    requires Heads(cs, heads) && Heads(ds, hs) && n <= |cs| && n <= |ds|
    requires forall k :: 0 <= k < n ==> cs[k] == ds[k] && heads[k] == hs[k]
    ensures FramesUpto(cs, heads, n) == FramesUpto(ds, hs, n)
  {
    if n > 0 {
      FramesSame(cs, heads, ds, hs, n - 1);
    }
  }

  lemma WroteAll(was: seq<Byte>, cs: seq<Content>, heads: seq<seq<Byte>>, ample: bool, now: seq<Byte>)
    requires Wrote(was, cs, |cs|, heads, ample, now)
    ensures Heads(cs, heads) && now == was + FramesUpto(cs, heads, |cs|) && (ample ==> Headed(cs, heads))
  {
    assert cs[..|cs|] == cs;
  }

  /**
   * WriteWithoutFlush for every record, as long as that succeeds. If no malloc failed, the bodies are appended, each
   * behind nine bytes; these are the heads if there was an area for each, which can be told before the first call.
   */
  method WriteAll(out: RecordWriter, recs: seq<Parts>) returns (rc: int, ghost heads: seq<seq<Byte>>)
    requires out.t.Valid() && out.t.HasBuffer(out.i) && forall k :: 0 <= k < |recs| ==> out.Takes(recs[k])
    modifies out.t.repr
    ensures out.t.Valid() && fresh(out.t.repr - old(out.t.repr)) && out.t.items == old(out.t.items)
    ensures out.t.h.fails >= old(out.t.h.fails)
    ensures out.i < |out.t.w.holders| && Beside(old(out.t.w), out.i, out.t.w) && Placed(recs, |old(out.t.w).holders|)
    ensures out.t.h.fails == old(out.t.h.fails) ==>
      var cs := Contents(old(out.t.w), recs);
      && (rc == 0 <==> AllWritable(cs))
      && (rc == 0 ==>
            && Heads(cs, heads)
            && Seen(out.t.w, out.i) == Seen(old(out.t.w), out.i) + FramesUpto(cs, heads, |cs|)
            && (Ample(old(out.t.w), out.i, recs, out.t.h.cap) ==> Headed(cs, heads)))
  {
    hide Thread.Valid, Seen, HasArea, SpotAt, Poured, Does, Body, Print, HeadOf, Wrote, Writable, Reshaped, Contents,
      ContentAt, Ample, Spends, CostUpto, Cost, Unwritten, NextHead;
    out.t.At(out.i);
    ghost var w := out.t.w;
    ghost var cs, ample := Contents(w, recs), Ample(w, out.i, recs, out.t.h.cap);
    heads := [];
    WroteNone(Seen(w, out.i), cs, ample);
    SpendsStart(w, out.i, recs, out.t.h.cap);
    AllBuffers(out, recs);
    for k := 0 to |recs|
      invariant out.t.Valid() && fresh(out.t.repr - old(out.t.repr)) && out.t.items == old(out.t.items)
      invariant out.t.h.fails >= old(out.t.h.fails) && Beside(w, out.i, out.t.w)
      invariant Spends(w, out.i, out.t.w, CostUpto(w, recs, k), out.t.h.cap)
      invariant out.t.h.fails == old(out.t.h.fails) ==>
        && Wrote(Seen(w, out.i), cs, k, heads, ample, Seen(out.t.w, out.i))
        && forall l :: 0 <= l < k ==> Writable(cs[l])
    {
      ghost var u := out.t.w;
      ghost var rs, mid;
      SameContent(w, out.i, u, recs[k]);
      rc, rs, mid := out.WriteWithoutFlush(recs[k]);
      BesideTrans(w, out.i, u, out.t.w);
      if rc != 0 {
        return;
      }
      SpendsOn(w, out.i, u, recs, k, out.t.w, out.t.h.cap);
      if out.t.h.fails == old(out.t.h.fails) {
        if ample {
          AmpleHas(w, out.i, recs, out.t.h.cap, k, u);
        }
        ghost var head := NextHead(u, out.i, cs[k], Poured(rs, |rs|), out.t.w);
        WroteMore(Seen(w, out.i), cs, k, heads, ample, Seen(u, out.i), head, Seen(out.t.w, out.i));
        heads := heads + [head];
      }
    }
    rc := 0;
    if out.t.h.fails == old(out.t.h.fails) {
      WroteAll(Seen(w, out.i), cs, heads, ample, Seen(out.t.w, out.i));
    }
  }

  /** The nine bytes in front of a record that was written. */
  ghost function NextHead(u: State, i: nat, c: Content, junk: seq<Byte>, v: State): (head: seq<Byte>)
    requires IsBuffer(u, i) && HasTls(u) && Writable(c) && i < |v.holders| && |junk| == HEAD
    requires Seen(v, i) == Seen(u, i) + if HasArea(SpotAt(u, i), HEAD) then Print(c) else junk + Body(c)
    ensures |head| == HEAD && Seen(v, i) == Seen(u, i) + (head + Body(c))
    ensures HasArea(SpotAt(u, i), HEAD) ==> head == HeadOf(c)
  {
    PrintIs(c);
    if HasArea(SpotAt(u, i), HEAD) then HeadOf(c) else junk
  }

  lemma PrintIs(c: Content)
    requires Writable(c)
    ensures Print(c) == HeadOf(c) + Body(c)
  {
  }

  lemma AllBuffers(out: RecordWriter, recs: seq<Parts>)
    requires out.t.Valid() && forall k :: 0 <= k < |recs| ==> out.Takes(recs[k])
    ensures forall k :: 0 <= k < |recs| ==> IsBuffer(out.t.w, recs[k].payload)
    ensures forall k, l :: 0 <= k < |recs| && 0 <= l < |recs[k].metas| ==> IsBuffer(out.t.w, recs[k].metas[l].data)
  {
    hide Thread.Valid;
    forall k | 0 <= k < |recs|
      ensures IsBuffer(out.t.w, recs[k].payload)
    {
      out.t.At(recs[k].payload);
    }
    forall k, l | 0 <= k < |recs| && 0 <= l < |recs[k].metas|
      ensures IsBuffer(out.t.w, recs[k].metas[l].data)
    {
      out.t.At(recs[k].metas[l].data);
    }
  }

  // ---- When what was written is read back ----

  function FramesFrom(cs: seq<Content>, heads: seq<seq<Byte>>, k: nat): seq<Byte>
    requires Heads(cs, heads) && k <= |cs|
    decreases |cs| - k
  {
    if k == |cs| then [] else (heads[k] + Body(cs[k])) + FramesFrom(cs, heads, k + 1)
  }

  lemma {:induction false} FramesSplit(cs: seq<Content>, heads: seq<seq<Byte>>, k: nat)
    requires Heads(cs, heads) && k <= |cs|
    ensures Eq(FramesUpto(cs, heads, k) + FramesFrom(cs, heads, k), FramesFrom(cs, heads, 0))
  {
    hide Body;
    if k == 0 {
      assert [] + FramesFrom(cs, heads, 0) == FramesFrom(cs, heads, 0);
    } else {
      FramesSplit(cs, heads, k - 1);
      Assoc(FramesUpto(cs, heads, k - 1), heads[k - 1] + Body(cs[k - 1]), FramesFrom(cs, heads, k));
    }
  }

  /** The record at the front is read exactly if its nine bytes are its head. */
  lemma FrontReads(head: seq<Byte>, c: Content, rest: seq<Byte>, max: nat)
    requires Readable(c, max) && |head| == HEAD
    ensures var s := (head + Body(c)) + rest;
      && (head == HeadOf(c) <==> exists at :: CutRecord(s, max) == Got(c, at))
      && (head == HeadOf(c) ==> CutRecord(s, max) == Got(c, HEAD + |Body(c)|) && s[HEAD + |Body(c)|..] == rest)
  {
    hide CutRecord, Readable, Body, Head, At;
    ReadableWritable(c, max);
    var s := (head + Body(c)) + rest;
    PrintIs(c);
    PrintParts(s, c);
    assert s[0..HEAD] == head;
    if head == HeadOf(c) {
      Begins(Print(c), rest);
      PrintedReads(s, c, max);
    } else if at :| CutRecord(s, max) == Got(c, at) {
      ReadsExactly(s, c, at, max);
      AtIn(s, 0, HeadOf(c));
    }
  }

  lemma ReadManyIs(s: seq<Byte>, n: nat, max: nat, cs: seq<Content>, tail: seq<Byte>)
    requires n > 0 && cs != []
    ensures ReadMany(s, n, max) == (cs, tail) <==>
      && CutRecord(s, max).Got? && CutRecord(s, max).content == cs[0]
      && ReadMany(s[CutRecord(s, max).at..], n - 1, max) == (cs[1..], tail)
  {
    hide CutRecord;
    var c := CutRecord(s, max);
    if c.Got? {
      var r := ReadMany(s[c.at..], n - 1, max);
      assert ([c.content] + r.0)[1..] == r.0 && [cs[0]] + cs[1..] == cs;
    }
  }

  lemma {:induction false} FramesReadFrom(cs: seq<Content>, heads: seq<seq<Byte>>, k: nat, tail: seq<Byte>, max: nat)
    requires Heads(cs, heads) && AllReadable(cs, max) && k <= |cs|
    ensures ReadMany(FramesFrom(cs, heads, k) + tail, |cs| - k, max) == (cs[k..], tail)
      <==> forall l :: k <= l < |cs| ==> heads[l] == HeadOf(cs[l])
    decreases |cs| - k
  {
    hide Readable, Body, HeadOf, CutRecord;
    var s := FramesFrom(cs, heads, k) + tail;
    if k == |cs| {
      assert s == tail && cs[k..] == [];
    } else {
      var x, y := heads[k] + Body(cs[k]), FramesFrom(cs, heads, k + 1);
      assert s == x + (y + tail);
      FrontReads(heads[k], cs[k], y + tail, max);
      FramesReadFrom(cs, heads, k + 1, tail, max);
      assert cs[k..][0] == cs[k] && cs[k..][1..] == cs[k + 1..];
      ReadManyIs(s, |cs| - k, max, cs[k..], tail);
    }
  }

  /** Readable records, each behind nine bytes and followed by anything, are read back if and only if these bytes are
      their heads. */
  lemma FramesRead(cs: seq<Content>, heads: seq<seq<Byte>>, tail: seq<Byte>, max: nat)
    requires Heads(cs, heads) && AllReadable(cs, max)
    ensures ReadMany(FramesUpto(cs, heads, |cs|) + tail, |cs|, max) == (cs, tail) <==> Headed(cs, heads)
  {
    hide Readable, Body, HeadOf, Writable, ReadMany;
    FramesSplit(cs, heads, |cs|);
    Nil(FramesUpto(cs, heads, |cs|));
    FramesReadFrom(cs, heads, 0, tail, max);
    assert cs[0..] == cs;
  }

  // ---- Reading ----

  /** The records hold these contents. */
  ghost predicate Hold(reader: RecordReader, got: seq<Record>, cs: seq<Content>)
    reads got, reader.cur.t, reader.cur.t.repr
  {
    |got| == |cs| && forall k :: 0 <= k < |got| ==> reader.Takes(got[k]) && got[k].Value() == cs[k]
  }

  method NewRecord(reader: RecordReader, ghost got: seq<Record>, ghost cs: seq<Content>) returns (rec: Record)
    requires reader.Valid() && Hold(reader, got, cs)
    modifies reader.cur.t.repr
    ensures fresh(rec) && reader.Went({}) && reader.Takes(rec) && Hold(reader, got, cs)
    ensures rec.metas == [] && rec.payload == |old(reader.cur.t.items)| && reader.cur.Rest() == old(reader.cur.Rest())
  {
    hide Thread.Valid, Seen, Keeps, Ok, Doubled;
    var cur := reader.cur;
    ghost var w := cur.t.w;
    cur.t.Begin();
    rec := new Record(cur.t);
    cur.Still(w, {});
    forall k | 0 <= k < |got|
      ensures reader.Takes(got[k]) && got[k].Value() == cs[k]
    {
      assert old(reader.Takes(got[k]) && got[k].Value() == cs[k]);
      ContentKept(w, got[k].Places(), {}, cur.t.w);
    }
  }

  /** One more record is cut; the records that are there keep what they hold. */
  method ReadOne(reader: RecordReader, ghost got: seq<Record>, ghost cs: seq<Content>) returns (rec: Record, rc: int)
    requires reader.Valid() && Hold(reader, got, cs)
    modifies reader`ncut, reader.cur.t.repr, reader.cur.c
    ensures fresh(rec) && reader.Went({reader.cur.i}) && reader.Takes(rec) && Hold(reader, got, cs)
    ensures match RecordFormat.CutRecord(old(reader.cur.Rest()), reader.max)
      case Got(c, at) => rc == 1 && reader.cur.Rest() == Skip(old(reader.cur.Rest()), at) && rec.Value() == c
      case _ => rc != 1
  {
    hide Thread.Valid, Seen, Keeps, Cursor.Rest, Skip, RecordFormat.CutRecord, Doubled;
    ghost var w := reader.cur.t.w;
    rec := NewRecord(reader, got, cs);
    label Empty:
    ghost var w1, os := reader.cur.t.w, {reader.cur.i, rec.payload};
    rc := reader.CutRecord(rec);
    KeepsTrans(w, {}, w1, os, reader.cur.t.w, {reader.cur.i});
    forall k | 0 <= k < |got|
      ensures reader.Takes(got[k]) && got[k].Value() == cs[k]
    {
      assert old@Empty(reader.Takes(got[k]) && got[k].Value() == cs[k]);
      ContentKept(w1, got[k].Places(), os, reader.cur.t.w);
    }
  }

  ghost predicate NotReading(s: seq<Byte>, n: nat, max: nat, k: nat, cs: seq<Content>, rest: seq<Byte>) {
    || k > n || |cs| != k || Differ(ReadMany(s, n, max).0, cs + ReadMany(rest, n - k, max).0)
    || Differ(ReadMany(s, n, max).1, ReadMany(rest, n - k, max).1)
  }

  /** The first `k` of up to `n` records are read. */
  ghost predicate Reading(s: seq<Byte>, n: nat, max: nat, k: nat, cs: seq<Content>, rest: seq<Byte>) {
    !NotReading(s, n, max, k, cs, rest)
  }

  lemma ReadingStart(s: seq<Byte>, n: nat, max: nat)
    ensures Reading(s, n, max, 0, [], s)
  {
    var all := ReadMany(s, n, max);
    assert all.0 == [] + all.0;
  }

  lemma ReadingOn(s: seq<Byte>, n: nat, max: nat, k: nat, cs: seq<Content>, rest: seq<Byte>)
    requires Reading(s, n, max, k, cs, rest) && k < n
    ensures match CutRecord(rest, max)
      case Got(c, at) => Reading(s, n, max, k + 1, cs + [c], Skip(rest, at))
      case _ => ReadMany(s, n, max).0 == cs
  {
    hide CutRecord;
    match CutRecord(rest, max)
    case Got(c, at) =>
      var r := ReadMany(rest[at..], n - k - 1, max);
      assert rest[at..] == Skip(rest, at);
      assert cs + ([c] + r.0) == (cs + [c]) + r.0;
    case _ => assert cs + [] == cs;
  }

  lemma ReadingEnds(s: seq<Byte>, n: nat, max: nat, cs: seq<Content>, rest: seq<Byte>)
    requires Reading(s, n, max, n, cs, rest)
    ensures ReadMany(s, n, max) == (cs, rest)
  {
    assert cs + [] == cs;
  }

  /** Up to `n` records are cut. */
  method ReadAll(reader: RecordReader, n: nat) returns (got: seq<Record>)
    requires reader.Valid()
    modifies reader`ncut, reader.cur.t.repr, reader.cur.c
    ensures reader.Went({reader.cur.i}) && fresh(got)
    ensures var all := ReadMany(old(reader.cur.Rest()), n, reader.max);
      Hold(reader, got, all.0) && (|got| == n ==> reader.cur.Rest() == all.1)
  {
    hide Thread.Valid, Seen, Keeps, Cursor.Rest, Cursor.Valid, Skip, CutRecord, Doubled, Reading, ReadMany;
    ghost var s, w, cs: seq<Content> := reader.cur.Rest(), reader.cur.t.w, [];
    got := [];
    KeepsSelf(w, {reader.cur.i});
    ReadingStart(s, n, reader.max);
    while |got| < n
      invariant reader.Went({reader.cur.i}) && fresh(got) && |got| <= n
      invariant Hold(reader, got, cs) && Reading(s, n, reader.max, |got|, cs, reader.cur.Rest())
    {
      ghost var w1, rest := reader.cur.t.w, reader.cur.Rest();
      var rec, rc := ReadOne(reader, got, cs);
      KeepsTrans(w, {reader.cur.i}, w1, {reader.cur.i}, reader.cur.t.w, {reader.cur.i});
      ReadingOn(s, n, reader.max, |got|, cs, rest);
      if rc != 1 {
        return;
      }
      cs := cs + [rec.Value()];
      got := got + [rec];
    }
    ReadingEnds(s, n, reader.max, cs, reader.cur.Rest());
  }

  // ---- Both ----

  /** Nobody but buffer `i` sees a change, and there may be more buffers. */
  ghost predicate OthersSame(w: State, i: nat, v: State) {
    |w.holders| <= |v.holders| && forall k :: 0 <= k < |w.holders| && k != i ==> Seen(v, k) == Seen(w, k)
  }

  lemma StillSame(w: State, i: nat, u: State, v: State)
    requires Beside(w, i, u) && Keeps(u, {i}, v)
    ensures OthersSame(w, i, v)
  {
    hide Seen;
  }

  /**
   * Records are written to an empty buffer, other bytes put behind them, and as many records are read. If no malloc
   * failed, the records are readable, blocks are small enough and refs few enough, all of which but the first can be
   * told before the call, then what was written is read and the other bytes are left.
   */
  method WriteThenRead(out: RecordWriter, recs: seq<Parts>, tail: seq<Byte>, max: nat)
    returns (rc: int, reader: RecordReader, got: seq<Record>)
    requires out.t.Valid() && out.t.HasBuffer(out.i) && forall k :: 0 <= k < |recs| ==> out.Takes(recs[k])
    requires out.i < |out.t.w.holders| && Seen(out.t.w, out.i) == []
    modifies out.t.repr
    ensures reader.Valid() && reader.cur.t == out.t && Placed(recs, |old(out.t.w).holders|)
    ensures OthersSame(old(out.t.w), out.i, out.t.w)
    ensures out.t.h.fails == old(out.t.h.fails) ==>
      var cs := Contents(old(out.t.w), recs);
      && (rc == 0 <==> AllWritable(cs))
      && (AllReadable(cs, max) && Ample(old(out.t.w), out.i, recs, out.t.h.cap) ==>
            rc == 0 && Hold(reader, got, cs) && reader.cur.Rest() == tail)
  {
    hide Thread.Valid, Seen, Cursor.Rest, Cursor.Valid, Readable, Writable, Contents, ReadMany, Ample, Headed, Heads,
      Poured, Does, Keeps, Doubled, Counted, ChainsOk, FramesUpto;
    var t, i := out.t, out.i;
    ghost var w := t.w;
    ghost var heads;
    rc, heads := WriteAll(out, recs);
    ghost var w1 := t.w;
    var put;
    ghost var done, rs;
    t.Begin();
    put, done, rs := t.AppendBytes(i, tail);
    PourBeside(w1, i, rs, put == -1, t.w);
    BesideTrans(w, i, w1, t.w);
    ghost var cs := Contents(w, recs);
    if t.h.fails == old(t.h.fails) && AllReadable(cs, max) && Ample(w, i, recs, t.h.cap) {
      AllReadableWritable(cs, max);
      assert tail[..done] == tail;
      assert [] + FramesUpto(cs, heads, |cs|) == FramesUpto(cs, heads, |cs|);
      FramesRead(cs, heads, tail, max);
    }
    reader := new RecordReader(t, i, max);
    ghost var w2 := t.w;
    got := ReadAll(reader, |recs|);
    StillSame(w, i, w2, t.w);
  }

  lemma AllReadableWritable(cs: seq<Content>, max: nat)
    requires AllReadable(cs, max)
    ensures AllWritable(cs)
  {
  }
}
