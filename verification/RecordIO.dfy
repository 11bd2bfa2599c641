/** RecordReader: a cutter over the buffer that the input is read into, and what it makes of the bytes. */
module RecordIO {
  import opened Chunks
  import opened Octets
  import opened RecordFormat
  import opened World
  import opened ChainLinks
  import opened Runs
  import opened Threads
  import opened Cursors
  import opened Records

  /** A 32-bit number as it lies in memory, lowest byte first. */
  function Memory(n: nat): (m: seq<Byte>)
    requires n < 2 * TOP
    ensures |m| == 4
  {
    var w := Word4(n);
    [w[3], w[2], w[1], w[0]]
  }

  class RecordReader {
    const cur: Cursor
    var ncut: nat
    const max: nat

    ghost predicate Valid()
      reads cur.t, cur.t.repr, cur.c
    {
      cur.Valid() && this !in cur.t.repr
    }

    /** The reader is in order, there may be more buffers, no malloc failed and nobody but `os` sees a change. */
    twostate predicate Went(os: set<nat>)
      reads *
    {
      && Valid() && fresh(cur.t.repr - old(cur.t.repr)) && old(cur.t.items) <= cur.t.items
      && cur.t.h.fails == old(cur.t.h.fails) && Keeps(old(cur.t.w), os, cur.t.w)
    }

    /** A record of the same thread that has nothing to do with the buffer read from. */
    ghost predicate Takes(rec: Record)
      reads rec, cur.t, cur.t.repr
    {
      rec.t == cur.t && rec.Valid() && !rec.Has(cur.i)
    }

    /** Bytes that are in buffer `i` already. */
    constructor (t: Thread, i: nat, max: nat)
      requires t.Valid() && t.HasBuffer(i)
      ensures Valid() && cur.t == t && cur.i == i && ncut == 0 && this.max == max
      ensures fresh(cur) && fresh(cur.c) && cur.Rest() == Seen(t.w, i)
    {
      hide Thread.Valid, Seen;
      cur := new Cursor(t, i);
      ncut := 0;
      this.max := max;
    }

    /** The length, name and size word of a meta at `p`; what is not there is not cut. */
    method CutMetaHead(word: nat, ghost s: seq<Byte>, ghost p: nat)
      returns (nameSize: nat, name: seq<Byte>, word': nat)
      requires Valid() && word < 2 * TOP && p <= |s| && cur.Rest() == Skip(s, p)
      modifies cur.t.repr, cur.c
      ensures Went({cur.i}) && cur.t.items == old(cur.t.items)
      ensures word' < 2 * TOP && nameSize == if p < |s| then Number(s[p]) else 0
      ensures var q := p + 1 + nameSize;
        cur.Rest() == Skip(s, q + 4) && (q + 4 <= |s| ==> name == s[p + 1..q] && word' == Number4(s[q..q + 4]))
    {
      hide Number4, Number, Memory, Thread.Valid, Seen, Keeps, Cursor.Rest, Cursor.Valid, Chunks.Take, Skip;
      ghost var w0 := cur.t.w;
      HeadCuts(s, p);
      var ok, nameSizeBuf := cur.Cut1();
      ghost var w1 := cur.t.w;
      if !ok {
        nameSizeBuf := 0;
      }
      nameSize := Number(nameSizeBuf);
      SkipAgain(s, p + 1, nameSize);
      name := cur.CutnBytes(nameSize);
      ghost var w2 := cur.t.w;
      SkipAgain(s, p + 1 + nameSize, 4);
      var part := cur.CutnBytes(4);
      KeepsTrans(w0, {cur.i}, w1, {cur.i}, w2, {cur.i});
      KeepsTrans(w0, {cur.i}, w2, {cur.i}, cur.t.w, {cur.i});
      TakeAtMost(Skip(s, p + 1 + nameSize), 4);
      var mem := part + Memory(word)[|part|..];
      word' := Number4(mem);
      WordOfNumber(mem);
      assert |part| == 4 ==> mem == part;
    }

    /** Record::MutableMeta while the reader has bytes before it. */
    method AddMeta(rec: Record, name: seq<Byte>) returns (k: int)
      requires Valid() && Takes(rec) && |name| < MAX_NAME_SIZE
      modifies rec, cur.t.repr
      ensures Went({}) && Takes(rec) && cur.Rest() == old(cur.Rest())
      ensures var was := old(rec.Value());
        if name == [] || HasName(was.metas, name) then k == -1 && rec.Value() == was
        else
          && k == |was.metas| == |rec.metas| - 1 && rec.metas[k] == Part(name, |old(cur.t.items)|)
          && rec.Value() == Content(was.metas + [Meta(name, [])], was.payload)
    {
      hide HasName, Named, Thread.Valid, Seen, Keeps, Ok;
      ghost var w := cur.t.w;
      cur.t.Begin();
      k := rec.MutableMeta(name, true);
      cur.Still(w, {});
    }

    /** A new meta with the next bytes as its data. */
    method CutData(rec: Record, name: seq<Byte>, metaSize: nat) returns (ok: bool)
      requires Valid() && Takes(rec) && |name| < MAX_NAME_SIZE
      modifies rec, cur.t.repr, cur.c
      ensures Went({cur.i}) && Takes(rec)
      ensures var was := old(rec.Value());
        && ok == (name != [] && !HasName(was.metas, name))
        && (!ok ==> rec.Value() == was && cur.Rest() == old(cur.Rest()))
        && (ok ==>
              && rec.Value() == Content(was.metas + [Meta(name, Chunks.Take(old(cur.Rest()), metaSize))], was.payload)
              && cur.Rest() == Skip(old(cur.Rest()), metaSize))
    {
      hide HasName, Named, Thread.Valid, Seen, Keeps, Chunks.Take, Skip, Cursor.Rest;
      ghost var w0 := cur.t.w;
      var k := AddMeta(rec, name);
      ghost var w1 := cur.t.w;
      KeepsSelf(w1, {});
      KeepsTrans(w0, {}, w1, {}, w1, {cur.i});
      if k < 0 {
        return false;
      }
      var _ := cur.Cutn(rec.metas[k].data, metaSize);
      KeepsTrans(w0, {}, w1, {cur.i, rec.metas[k].data}, cur.t.w, {cur.i});
      LastFilled(w1, rec.Places(), {cur.i, rec.metas[k].data}, cur.t.w, Chunks.Take(old(cur.Rest()), metaSize));
      return true;
    }

    /** One round of the loop over metas: `s` is the whole input, of which the record takes the first `e` bytes. */
    method CutMeta(rec: Record, word: nat, consumed: nat, size: nat, ghost s: seq<Byte>, ghost e: nat)
      returns (ok: bool, word': nat, consumed': nat)
      requires Valid() && Takes(rec) && word < 2 * TOP && consumed <= size && e == HEAD + size <= |s|
      requires cur.Rest() == Skip(s, HEAD + consumed)
      modifies this`ncut, rec, cur.t.repr, cur.c
      ensures Went({cur.i}) && Takes(rec)
      ensures rec.Value().payload == old(rec.Value()).payload && word' < 2 * TOP
      ensures var step := RecordFormat.CutMeta(s, e, old(rec.Value()).metas, HEAD + consumed);
              && (ok <==> step.One?)
              && (!ok ==>
                    && cur.Rest() == Skip(s, step.at) && ncut + HEAD + consumed == old(ncut) + step.at
                    && rec.Value().metas == old(rec.Value()).metas)
              && (ok ==>
                    && rec.Value().metas == old(rec.Value()).metas + [step.m] && (word' >= TOP <==> step.more)
                    && HEAD + consumed' == step.next <= e && consumed < consumed' && cur.Rest() == Skip(s, step.next)
                    && ncut == old(ncut) + (consumed' - consumed))
    {
      hide Number4, Number, HasName, Thread.Valid, Seen, Keeps, Cursor.Rest, Chunks.Take, Skip, RecordFormat.CutMeta,
        Doubled;
      ghost var p := HEAD + consumed;
      ghost var w0, v0 := cur.t.w, rec.Value();
      var nameSize, name;
      nameSize, name, word' := CutMetaHead(word, s, p);
      MetaStep(s, e, v0.metas, p, nameSize, name, word');
      var metaSize := word' % TOP;
      ncut := ncut + 5 + nameSize;
      consumed' := consumed;
      ContentKept(w0, rec.Places(), {cur.i}, cur.t.w);
      if consumed + 5 + nameSize + metaSize > size {
        return false, word', consumed;
      }
      ghost var w1 := cur.t.w;
      ok := CutData(rec, name, metaSize);
      KeepsTrans(w0, {cur.i}, w1, {cur.i}, cur.t.w, {cur.i});
      if !ok {
        return false, word', consumed;
      }
      SkipAgain(s, p + 5 + nameSize, metaSize);
      ncut := ncut + metaSize;
      consumed' := consumed + 5 + nameSize + metaSize;
    }

    /** The loop over metas. */
    method CutMetas(rec: Record, first: nat, size: nat, ghost s: seq<Byte>, ghost e: nat)
      returns (ok: bool, consumed: nat)
      requires Valid() && Takes(rec) && first < 2 * TOP && e == HEAD + size <= |s| && cur.Rest() == Skip(s, HEAD)
      requires rec.Value() == Content([], [])
      modifies this`ncut, rec, cur.t.repr, cur.c
      ensures Went({cur.i}) && Takes(rec) && rec.Value().payload == [] && ncut >= old(ncut)
      ensures cur.Rest() == Skip(s, HEAD + (ncut - old(ncut)))
      ensures ok ==>
        consumed == ncut - old(ncut) && SoFar(s, e, Goal(s, e, first >= TOP), false, consumed, rec.Value().metas)
      ensures !ok ==>
        Goal(s, e, first >= TOP) == Bad(HEAD + (ncut - old(ncut)), rec.Value().metas) && ncut > old(ncut)
    {
      hide RecordFormat.CutMeta, Thread.Valid, Seen, Keeps, Skip, SoFar, Goal, Cursor.Rest, Cursor.Valid, Record.Value,
        Doubled;
      var word: nat, hasMeta := first, first >= TOP;
      consumed := 0;
      KeepsSelf(cur.t.w, {cur.i});
      ghost var goal := Goal(s, e, first >= TOP);
      SoFarStart(s, e, first >= TOP);
      while hasMeta
        invariant Went({cur.i}) && Takes(rec)
        invariant word < 2 * TOP && consumed <= size && cur.Rest() == Skip(s, HEAD + consumed)
        invariant rec.Value().payload == [] && ncut == old(ncut) + consumed
        invariant SoFar(s, e, goal, hasMeta, consumed, rec.Value().metas)
        decreases size - consumed, hasMeta
      {
        ghost var w := cur.t.w;
        SoFarOn(s, e, goal, consumed, rec.Value().metas);
        ok, word, consumed := CutMeta(rec, word, consumed, size, s, e);
        KeepsTrans(old(cur.t.w), {cur.i}, w, {cur.i}, cur.t.w, {cur.i});
        if !ok {
          return;
        }
        hasMeta := word >= TOP;
      }
      ok := true;
    }

    /** Record::Clear while the reader has bytes before it. */
    method ClearRecord(rec: Record)
      requires Valid() && Takes(rec)
      modifies rec, cur.t.repr
      ensures Went({rec.payload}) && Takes(rec) && rec.Value() == Content([], []) && cur.Rest() == old(cur.Rest())
    {
      hide Thread.Valid, Seen, Keeps, Ok;
      ghost var w := cur.t.w;
      cur.t.Begin();
      rec.Clear();
      cur.Still(w, {rec.payload});
    }

    method PastHead(rec: Record)
      requires Valid() && Takes(rec) && |cur.Rest()| >= HEAD
      modifies this`ncut, rec, cur.t.repr, cur.c
      ensures Went({cur.i, rec.payload}) && Takes(rec) && rec.Value() == Content([], [])
      ensures cur.Rest() == Skip(old(cur.Rest()), HEAD) && ncut == old(ncut) + HEAD
    {
      hide Thread.Valid, Seen, Keeps, Skip, Cursor.Rest;
      ghost var w0 := cur.t.w;
      ClearRecord(rec);
      ghost var w1 := cur.t.w;
      var _ := cur.PopFront(HEAD);
      ContentKept(w1, rec.Places(), {cur.i}, cur.t.w);
      KeepsTrans(w0, {rec.payload}, w1, {cur.i}, cur.t.w, {cur.i, rec.payload});
      ncut := ncut + HEAD;
    }

    method CutPayload(rec: Record, n: nat)
      requires Valid() && Takes(rec)
      modifies this`ncut, cur.t.repr, cur.c
      ensures Went({cur.i, rec.payload}) && Takes(rec)
      ensures var c := old(rec.Value()); rec.Value() == Content(c.metas, c.payload + Chunks.Take(old(cur.Rest()), n))
      ensures cur.Rest() == Skip(old(cur.Rest()), n) && (n <= |old(cur.Rest())| ==> ncut == old(ncut) + n)
    {
      hide Thread.Valid, Seen, Keeps, Skip, Chunks.Take;
      ghost var w := cur.t.w;
      var cut := cur.Cutn(rec.payload, n);
      PayloadFilled(w, rec.Places(), {cur.i, rec.payload}, cur.t.w);
      ncut := ncut + cut;
    }

    /** A record whose head is good and whose bytes are all there. */
    method CutBody(rec: Record, word: nat, size: nat, ghost s: seq<Byte>) returns (rc: int)
      requires Valid() && Takes(rec) && word < 2 * TOP && HEAD + size <= |s| && cur.Rest() == s
      modifies this`ncut, rec, cur.t.repr, cur.c
      ensures Went({cur.i, rec.payload}) && Takes(rec) && rc in {1, -1} && ncut >= old(ncut) + HEAD
      ensures cur.Rest() == Skip(s, ncut - old(ncut)) && (rc == -1 ==> rec.Value().payload == [])
      ensures Goal(s, HEAD + size, word >= TOP) ==
        if rc == 1 then Got(rec.Value(), ncut - old(ncut)) else Bad(ncut - old(ncut), rec.Value().metas)
    {
      hide Thread.Valid, Seen, Keeps, Skip, SoFar, Goal, Chunks.Take, Cursor.Rest, Cursor.Valid, Record.Value, Doubled;
      ghost var w0, e, os := cur.t.w, HEAD + size, {cur.i, rec.payload};
      PastHead(rec);
      ghost var w1 := cur.t.w;
      var ok, consumed := CutMetas(rec, word, size, s, e);
      ghost var w2 := cur.t.w;
      KeepsTrans(w0, os, w1, {cur.i}, w2, os);
      if !ok {
        return -1;
      }
      SoFarEnds(s, e, Goal(s, e, word >= TOP), consumed, rec.Value().metas);
      SkipAgain(s, HEAD + consumed, size - consumed);
      CutPayload(rec, size - consumed);
      KeepsTrans(w0, os, w2, os, cur.t.w, os);
      return 1;
    }

    /**
     * Cuts a record: 1 if there was one, 0 if more bytes are needed, -1 if the bytes are no record. After a bad meta
     * the record holds the metas before it.
     */
    method CutRecord(rec: Record) returns (rc: int)
      requires Valid() && Takes(rec)
      modifies this`ncut, rec, cur.t.repr, cur.c
      ensures Went({cur.i, rec.payload}) && Takes(rec)
      ensures match RecordFormat.CutRecord(old(cur.Rest()), max)
        case Short => rc == 0 && cur.Rest() == old(cur.Rest()) && ncut == old(ncut) && rec.Value() == old(rec.Value())
        case Bad(at, ms) =>
          && rc == -1 && cur.Rest() == Skip(old(cur.Rest()), at) && ncut == old(ncut) + at
          && rec.Value() == if at == 0 then old(rec.Value()) else Content(ms, [])
        case Got(c, at) =>
          rc == 1 && cur.Rest() == Skip(old(cur.Rest()), at) && ncut == old(ncut) + at && rec.Value() == c
    {
      hide Number4, SizeChecksum, Magic, RecordFormat.CutRecord, Thread.Valid, Seen, Keeps, Skip, Goal, Chunks.Take,
        Cursor.Rest, Cursor.Valid, Record.Value, Doubled;
      ghost var s, w := cur.Rest(), cur.t.w;
      HeadTaken(s, max);
      var headbuf := CopyHead(rec);
      if |headbuf| != HEAD {
        return 0;
      }
      HeadSays(s, max);
      if headbuf[..4] != Magic() {
        return -1;
      }
      var wire := headbuf[4..8];
      var word := Number4(wire);
      WordOfNumber(wire);
      var checksum := SizeChecksum(wire);
      var size := word % TOP;
      if checksum != headbuf[8] {
        return -1;
      }
      if size > max {
        return -1;
      }
      var remaining := cur.RemainingBytes();
      if remaining < size + HEAD {
        return 0;
      }
      ghost var w1 := cur.t.w;
      rc := CutBody(rec, word, size, s);
      KeepsTrans(w, {cur.i, rec.payload}, w1, {cur.i, rec.payload}, cur.t.w, {cur.i, rec.payload});
    }

    /** The bytes of a head are copied and stay. */
    method CopyHead(rec: Record) returns (headbuf: seq<Byte>)
      requires Valid() && Takes(rec)
      modifies cur.t.repr, cur.c
      ensures Went({cur.i, rec.payload}) && Takes(rec) && rec.Value() == old(rec.Value())
      ensures headbuf == Chunks.Take(old(cur.Rest()), HEAD) && cur.Rest() == old(cur.Rest())
    {
      hide Thread.Valid, Seen, Keeps, Chunks.Take, Cursor.Rest;
      ghost var w := cur.t.w;
      headbuf := cur.CopyTo(HEAD);
      ContentKept(w, rec.Places(), {cur.i}, cur.t.w);
      KeepsSelf(cur.t.w, {});
      KeepsTrans(w, {cur.i}, cur.t.w, {}, cur.t.w, {cur.i, rec.payload});
    }

    /** One round of the search: the bytes of one window without a magic number are dropped. */
    method SearchWindow(ghost t: seq<Byte>, ghost at: nat) returns (found: bool, last: bool, ghost at': nat)
      requires Valid() && at <= |t| && cur.Rest() == Skip(t, at) && NoMagicBefore(t, at) && (at > 0 ==> |t| - at >= 3)
      modifies this`ncut, cur.t.repr, cur.c
      ensures Went({cur.i}) && at <= at' <= |t| && cur.Rest() == Skip(t, at') && ncut == old(ncut) + (at' - at)
      ensures NoMagicBefore(t, at') && (found ==> MagicAt(t, at'))
      ensures last && !found ==> NoMagicBefore(t, |t|) && |t| - at' == if |t| < 4 then |t| else 3
      ensures !last && !found ==> at < at' && |t| - at' >= 3
    {
      hide Magic, Thread.Valid, Seen, Keeps, Cursor.Rest, Cursor.Valid, NoMagicBefore, MagicAt, Skip, Chunks.Take;
      ghost var w := cur.t.w;
      SkipLength(t, at);
      TakeSize(cur.Rest(), 512);
      var buf := cur.CopyTo(512);
      var nc := |buf|;
      if nc < 4 {
        NoRoom(t, at);
        return false, true, at;
      }
      ghost var w1 := cur.t.w;
      var m := nc - 3;
      var i := FindMagic(buf, m);
      FoundFrom(t, at, 512, i);
      SkipAgain(t, at, i);
      var _ := cur.PopFront(i);
      KeepsTrans(w, {cur.i}, w1, {cur.i}, cur.t.w, {cur.i});
      ncut := ncut + i;
      at' := at + i;
      found, last := i < m, nc < 512;
      if !found && last {
        NoRoom(t, at');
      }
    }

    /** A magic number at the beginning is skipped. */
    method SkipMagic() returns (enough: bool)
      requires Valid()
      modifies this`ncut, cur.t.repr, cur.c
      ensures Went({cur.i}) && enough == (|old(cur.Rest())| >= 4)
      ensures cur.Rest() == (if enough then Past(old(cur.Rest())) else old(cur.Rest()))
        && ncut + |cur.Rest()| == old(ncut + |cur.Rest()|)
    {
      hide Magic, Thread.Valid, Seen, Keeps, Cursor.Rest, Cursor.Valid, NoMagicBefore, MagicAt, Skip, Chunks.Take, Past;
      ghost var w := cur.t.w;
      Beginning(cur.Rest());
      var magic := cur.CopyTo(4);
      enough := |magic| == 4;
      if enough && magic == Magic() {
        ghost var w1 := cur.t.w;
        var _ := cur.PopFront(4);
        KeepsTrans(w, {cur.i}, w1, {cur.i}, cur.t.w, {cur.i});
        ncut := ncut + 4;
      }
    }

    /**
     * Moves to the next place a record may begin, a magic number standing at the very beginning not counted. If there
     * is none, what stays are the bytes in which one may still begin.
     */
    method CutUntilNextRecordCandidate() returns (found: bool)
      requires Valid()
      modifies this`ncut, cur.t.repr, cur.c
      ensures Went({cur.i}) && ncut + |cur.Rest()| == old(ncut + |cur.Rest()|)
      ensures |old(cur.Rest())| < 4 ==> !found && cur.Rest() == old(cur.Rest())
      ensures |old(cur.Rest())| >= 4 ==>
                var t, rest := Past(old(cur.Rest())), cur.Rest();
                var at := |t| - |rest|;
                && 0 <= at && rest == t[at..] && NoMagicBefore(t, at)
                && (if found then MagicAt(t, at) else |rest| == (if |t| < 4 then |t| else 3) && NoMagicBefore(t, |t|))
    {
      hide Magic, Thread.Valid, Seen, Keeps, Cursor.Rest, Cursor.Valid, NoMagicBefore, MagicAt, Skip, Past;
      ghost var s, w := cur.Rest(), cur.t.w;
      var enough := SkipMagic();
      Beginning(s);
      if !enough {
        return false;
      }
      ghost var t, at: nat := Past(s), 0;
      while true
        invariant Went({cur.i}) && at <= |t| && cur.Rest() == Skip(t, at)
        invariant NoMagicBefore(t, at) && (at > 0 ==> |t| - at >= 3) && ncut + |t| - at == old(ncut + |cur.Rest()|)
        decreases |t| - at
      {
        ghost var w1 := cur.t.w;
        var last;
        found, last, at := SearchWindow(t, at);
        KeepsTrans(w, {cur.i}, w1, {cur.i}, cur.t.w, {cur.i});
        SkipLength(t, at);
        if found || last {
          return;
        }
      }
    }
  }

  /** What is behind the head of a record that ends at `e`. */
  function Goal(s: seq<Byte>, e: nat, more: bool): Cut
    requires HEAD <= e <= |s|
  {
    if more then RecordFormat.CutMetas(s, e, [], HEAD) else Got(Content([], s[HEAD..e]), e)
  }

  /** The metas `ms` are cut, with `taken` bytes, and there are more or not. */
  ghost predicate SoFar(s: seq<Byte>, e: nat, goal: Cut, more: bool, taken: nat, ms: seq<Meta>) {
    && HEAD + taken <= e <= |s|
    && goal == if more then RecordFormat.CutMetas(s, e, ms, HEAD + taken) else Got(Content(ms, s[HEAD + taken..e]), e)
  }

  lemma SoFarStart(s: seq<Byte>, e: nat, more: bool)
    requires HEAD <= e <= |s|
    ensures SoFar(s, e, Goal(s, e, more), more, 0, [])
  {
  }

  lemma SoFarOn(s: seq<Byte>, e: nat, goal: Cut, taken: nat, ms: seq<Meta>)
    requires SoFar(s, e, goal, true, taken, ms)
    ensures HEAD + taken <= e <= |s|
    ensures var step := RecordFormat.CutMeta(s, e, ms, HEAD + taken);
      match step
      case One(m, more, next) => next >= HEAD && SoFar(s, e, goal, more, next - HEAD, ms + [m])
      case Fail(at) => goal == Bad(at, ms) && at > HEAD + taken
  {
  }

  /** What the format says, told from what was cut. */
  lemma MetaStep(s: seq<Byte>, e: nat, ms: seq<Meta>, p: nat, nameSize: nat, name: seq<Byte>, word: nat)
    requires p <= e <= |s| && nameSize == if p < |s| then Number(s[p]) else 0
    requires var q := p + 1 + nameSize; q + 4 <= |s| ==> name == s[p + 1..q] && word == Number4(s[q..q + 4])
    ensures var q, size := p + 1 + nameSize, word % TOP;
      && RecordFormat.CutMeta(s, e, ms, p) == (
        if q + 4 + size > e || name == [] || HasName(ms, name) then Fail(q + 4)
        else One(Meta(name, Chunks.Take(Skip(s, q + 4), size)), word >= TOP, q + 4 + size))
      && (q + 4 + size <= e ==> |name| < MAX_NAME_SIZE)
  {
    hide Number4, Number, HasName;
    if p < |s| {
      OctetOfNumber(s[p]);
    }
    SkipAgain(s, p + 5 + nameSize, word % TOP);
  }

  lemma SoFarEnds(s: seq<Byte>, e: nat, goal: Cut, taken: nat, ms: seq<Meta>)
    requires SoFar(s, e, goal, false, taken, ms)
    ensures HEAD + taken <= e <= |s| && goal == Got(Content(ms, s[HEAD + taken..e]), e)
    ensures |Skip(s, HEAD + taken)| == |s| - (HEAD + taken)
  {
  }

  lemma PayloadFilled(w: State, rec: Parts, os: set<nat>, v: State)
    requires Keeps(w, os, v) && rec.payload < |v.holders|
    requires forall k :: 0 <= k < |rec.metas| ==> rec.metas[k].data < |w.holders| && rec.metas[k].data !in os
    ensures forall k :: 0 <= k < |rec.metas| ==> rec.metas[k].data < |v.holders|
    ensures ContentAt(v, rec) == Content(MetasAt(w, rec.metas), Seen(v, rec.payload))
  {
    MetasKept(w, rec.metas, os, v);
  }

  lemma HeadTaken(s: seq<Byte>, max: nat)
    ensures Skip(s, 0) == s && (|Chunks.Take(s, HEAD)| != HEAD ==> RecordFormat.CutRecord(s, max).Short?)
    ensures |Chunks.Take(s, HEAD)| == HEAD ==> |s| >= HEAD
  {
  }

  /** What the format says, told from the head. */
  lemma HeadSays(s: seq<Byte>, max: nat)
    requires |s| >= HEAD
    ensures var h := Chunks.Take(s, HEAD);
      && |h| == HEAD && Number4(h[4..8]) < 2 * TOP
      && var word := Number4(h[4..8]);
         RecordFormat.CutRecord(s, max) ==
           if h[..4] != Magic() || SizeChecksum(h[4..8]) != h[8] || word % TOP > max then Bad(0, [])
           else if |s| < word % TOP + HEAD then Short
           else Goal(s, HEAD + word % TOP, word >= TOP)
  {
    hide Number4, SizeChecksum, Magic, RecordFormat.CutMetas;
    var h := Chunks.Take(s, HEAD);
    assert h[..4] == s[..4] && h[4..8] == s[4..8];
    WordOfNumber(h[4..8]);
  }

  lemma HeadCuts(s: seq<Byte>, p: nat)
    requires p <= |s|
    ensures Skip(Skip(s, p), 1) == Skip(s, p + 1) && Number(0) == 0
    ensures (Skip(s, p) != [] <==> p < |s|) && (p < |s| ==> Skip(s, p)[0] == s[p])
  {
  }

  lemma TakeAtMost(s: seq<Byte>, n: nat)
    ensures |Chunks.Take(s, n)| <= n
  {
  }

  ghost predicate NoMagicBefore(s: seq<Byte>, n: nat) {
    forall j :: 0 <= j < n ==> !MagicAt(s, j)
  }

  /** The first place below `m` at which there is a magic number, or `m`. */
  method FindMagic(s: seq<Byte>, m: nat) returns (i: nat)
    requires m + 3 <= |s|
    ensures i <= m && NoMagicBefore(s, i) && (i < m ==> MagicAt(s, i))
  {
    hide Magic;
    i := 0;
    while i < m
      invariant i <= m && NoMagicBefore(s, i)
    {
      if s[i..i + 4] == Magic() {
        return;
      }
      i := i + 1;
    }
  }

  lemma MagicIn(t: seq<Byte>, at: nat, n: nat, j: nat)
    requires j + 4 <= |Chunks.Take(Skip(t, at), n)|
    ensures MagicAt(Chunks.Take(Skip(t, at), n), j) <==> MagicAt(t, at + j)
  {
    hide Magic;
    var buf := Chunks.Take(Skip(t, at), n);
    assert at + |buf| <= |t| && forall k :: 0 <= k < |buf| ==> buf[k] == t[at + k];
    assert buf[j..j + 4] == t[at + j..at + j + 4];
  }

  /** What is found in the window of `n` bytes at `at`. */
  lemma FoundFrom(t: seq<Byte>, at: nat, n: nat, i: nat)
    requires var buf := Chunks.Take(Skip(t, at), n);
      NoMagicBefore(t, at) && NoMagicBefore(buf, i) && i + 3 <= |buf|
    ensures NoMagicBefore(t, at + i) && (MagicAt(Chunks.Take(Skip(t, at), n), i) ==> MagicAt(t, at + i))
  {
    hide MagicAt, Skip, Chunks.Take;
    if MagicAt(Chunks.Take(Skip(t, at), n), i) {
      MagicFits(Chunks.Take(Skip(t, at), n), i);
      MagicIn(t, at, n, i);
    }
    forall j | at <= j < at + i
      ensures !MagicAt(t, j)
    {
      MagicIn(t, at, n, j - at);
    }
  }

  lemma MagicFits(s: seq<Byte>, i: nat)
    requires MagicAt(s, i)
    ensures i + 4 <= |s|
  {
  }

  lemma SkipLength(t: seq<Byte>, at: nat)
    requires at <= |t|
    ensures |Skip(t, at)| == |t| - at && Skip(t, at) == t[at..]
  {
  }

  lemma TakeSize(s: seq<Byte>, n: nat)
    ensures |Chunks.Take(s, n)| == if n < |s| then n else |s|
  {
  }

  lemma Beginning(s: seq<Byte>)
    ensures NoMagicBefore(Past(s), 0) && Skip(s, 0) == s && Skip(Past(s), 0) == Past(s)
    ensures |Chunks.Take(s, 4)| == 4 <==> |s| >= 4
    ensures |s| >= 4 ==> Past(s) == if Chunks.Take(s, 4) == Magic() then Skip(s, 4) else s
    ensures |s| >= 4 ==> |Skip(s, 4)| == |s| - 4
  {
    hide Magic;
    if |s| >= 4 {
      assert s[0..4] == s[..4];
    }
    assert |s| == 4 ==> s[4..] == [];
  }

  /** No magic number begins in the last three bytes. */
  lemma NoRoom(t: seq<Byte>, at: nat)
    requires at <= |t| < at + 4 && NoMagicBefore(t, at)
    ensures NoMagicBefore(t, |t|)
  {
  }

  predicate MagicAt(s: seq<Byte>, p: nat) {
    p + 4 <= |s| && s[p..p + 4] == Magic()
  }

  /** Without the magic number at the beginning, if there is one. */
  function Past(s: seq<Byte>): seq<Byte> {
    if MagicAt(s, 0) then s[4..] else s
  }
}
