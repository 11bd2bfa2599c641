/** One round of each loop of IOBuf: what the round keeps true. */
module RefLoops {
  import opened Chunks
  import opened Blocks
  import opened RefLists
  import opened RefSteps
  import opened RefRuns

  type Outcome = (Mem, seq<BlockRef>, nat)

  lemma FitsIs(m: Mem, r: BlockRef)
    requires Fits(m, r)
    ensures r.block in m && r.block != NULL && InLimit(r)
  {
  }

  lemma TailIs(r: BlockRef, n: nat)
    requires n <= r.length
    ensures Tail(r, n).block == r.block && Head(r, n).block == r.block
  {
  }

  lemma HeldLength(m: Mem, s: seq<BlockRef>)
    requires Held(m, s)
    ensures |Bytes(m, s)| == Total(s) && Sound(m, s)
  {
    BytesLength(m, s);
  }

  // ---- Reading ----

  lemma RefFacts(m: Mem, s: seq<BlockRef>, i: nat)
    requires Sound(m, s)
    ensures i < |s| ==> 0 < s[i].length && Fits(m, s[i])
  {
    assert i < |s| ==> RefOk(m, s[i]);
  }

  lemma FrontByte(m: Mem, s: seq<BlockRef>)
    requires Sound(m, s) && |s| > 0
    ensures var r := s[0];
      r.block in m && r.offset < |m[r.block].data| && |Bytes(m, s)| > 0 && Bytes(m, s)[0] == m[r.block].data[r.offset]
  {
    assert RefOk(m, s[0]);
    First(m, s);
    SubIs(m[s[0].block].data, s[0].offset, s[0].length);
  }

  lemma TakeFrontRef(m: Mem, s: seq<BlockRef>, out: seq<Byte>, n: nat, k: nat)
    requires Held(m, s) && |s| > 0 && n == s[0].length + k
    ensures var m1 := DecRef(m, s[0].block);
      Eq((out + Slice(m, s[0])) + Take(Bytes(m1, s[1..]), k), out + Take(Bytes(m, s), n))
  {
    var m1 := DecRef(m, s[0].block);
    PopFrontStep(m, s);
    SliceLength(m, s[0]);
    TakePastFirst(Slice(m, s[0]), Bytes(m1, s[1..]), n, k);
    Assoc(out, Slice(m, s[0]), Take(Bytes(m1, s[1..]), k));
  }

  lemma TakeFrontPart(m: Mem, s: seq<BlockRef>, out: seq<Byte>, n: nat)
    requires Held(m, s) && |s| > 0 && n < s[0].length
    ensures Eq(out + Slice(m, Head(s[0], n)), out + Take(Bytes(m, s), n))
  {
    First(m, s);
    SliceLength(m, s[0]);
    TakeSlice(m, s[0], n);
    TakeInFirst(Slice(m, s[0]), Bytes(m, s[1..]), n);
    Nil(Take(Slice(m, s[0]), n));
  }

  lemma CutOn(m: Mem, s: seq<BlockRef>, i: nat, off: nat, n: nat, d: seq<Byte>, k: nat)
    requires i < |s| && off <= s[i].length && 0 < n && k == if n < s[i].length - off then n else s[i].length - off
    ensures Eq((d + Slice(m, Piece(s[i], off, k))) + Cut(m, s, i + 1, 0, n - k), d + Cut(m, s, i, off, n))
  {
    assert n - k == Over(n, Over(s[i].length, off)) && k == Min(n, Over(s[i].length, off));
    Assoc(d, Slice(m, Piece(s[i], off, k)), Cut(m, s, i + 1, 0, n - k));
  }

  lemma CutDone(m: Mem, s: seq<BlockRef>, i: nat, off: nat, n: nat, d: seq<Byte>)
    requires n == 0 || i >= |s|
    ensures Eq(d, d + Cut(m, s, i, off, n))
  {
    Nil(d);
  }

  // ---- append_to ----

  lemma SharingOnPart(m: Mem, s: seq<BlockRef>, i: nat, off: nat, n: nat, t: seq<BlockRef>, end: Outcome, k: nat)
    requires Sharing(m, s, i, off, n, t, end) && 0 < n && i < |s|
    requires off <= s[i].length && k == if n < s[i].length - off then n else s[i].length - off
    ensures var r := Piece(s[i], off, k);
      Fits(m, r) && Sharing(PushMem(m, t, r), s, i + 1, 0, n - k, PushBack(t, r), end)
  {
    assert k == Min(n, Over(s[i].length, off));
    HeldRef(m, s, t, i);
    assert RefOk(m, s[i]);
    SharingOn(m, s, i, off, n, t, end, k);
  }

  lemma SharingFacts(m: Mem, s: seq<BlockRef>, i: nat, off: nat, n: nat, t: seq<BlockRef>, end: Outcome)
    requires Sharing(m, s, i, off, n, t, end)
    ensures i < |s| ==> off < s[i].length
  {
  }

  lemma SharedSubstr(m: Mem, s: seq<BlockRef>, i: nat, off: nat, n: nat, t: seq<BlockRef>, pos: nat, x: seq<Byte>)
    requires Held2(m, s, t) && i <= |s| && pos == TotalUpto(s, i) + off && (i < |s| ==> off < s[i].length)
    requires Eq(x, Substr(Bytes(m, s), pos, n))
    ensures var (m', t', left) := Share(m, s, i, off, n, t); Shared(m, s, t, m', t', x)
  {
    ShareShared(m, s, i, off, n, t);
    assert Sound(m, s);
    hide Shared, Held2, Share, Substr, Bytes, Sound;
    CutAt(m, s, i, off, n, pos);
  }

  lemma SharedCount(m: Mem, s: seq<BlockRef>, i: nat, off: nat, n: nat, t: seq<BlockRef>, pos: nat)
    requires Sound(m, s) && i <= |s| && pos == TotalUpto(s, i) + off && (i < |s| ==> off < s[i].length)
    ensures Share(m, s, i, off, n, t).2 + |Substr(Bytes(m, s), pos, n)| == n
  {
    hide *;
    BytesLength(m, s);
    TotalBound(s, i);
    ShareLeft(m, s, i, off, n, t);
    SubstrLength(Bytes(m, s), pos, n);
  }

  lemma TotalBound(s: seq<BlockRef>, i: nat)
    requires i <= |s|
    ensures if i < |s| then TotalUpto(s, i) + s[i].length <= Total(s) else TotalUpto(s, i) == Total(s)
  {
    if i < |s| {
      TotalMonotone(s, i + 1, |s|);
    }
  }

  lemma SharingStart(m: Mem, s: seq<BlockRef>, i: nat, off: nat, n: nat, t: seq<BlockRef>,
    pos: nat) returns (end: Outcome)
    requires Held2(m, s, t) && i <= |s| && pos == TotalUpto(s, i) + off && (i < |s| ==> off == 0 || off < s[i].length)
    ensures Sharing(m, s, i, off, n, t, end)
    ensures Shared(m, s, t, end.0, end.1, Substr(Bytes(m, s), pos, n)) && end.2 + |Substr(Bytes(m, s), pos, n)| == n
    ensures SharedFrom(m, s, pos, n, t, end.0, end.1)
  {
    HeldRef(m, s, t, i);
    assert Sound(m, s);
    hide Shared, Held2, Share, Substr, Bytes, Sound, TotalUpto;
    end := Share(m, s, i, off, n, t);
    SharedSubstr(m, s, i, off, n, t, pos, Substr(Bytes(m, s), pos, n));
    SharedCount(m, s, i, off, n, t, pos);
  }

  lemma SharingDone(m0: Mem, t0: seq<BlockRef>, x: seq<Byte>, m: Mem, s: seq<BlockRef>, i: nat, off: nat, n: nat,
    t: seq<BlockRef>, end: Outcome)
    requires Sharing(m, s, i, off, n, t, end) && (n == 0 || i >= |s|) && Shared(m0, s, t0, end.0, end.1, x)
    ensures Shared(m0, s, t0, m, t, x) && end == (m, t, n)
  {
    hide Shared, Held2;
    assert Eq(end.0, m) && Eq(end.1, t);
  }

  // ---- append of a buffer ----

  lemma WholeRef(m: Mem, s: seq<BlockRef>, i: nat, left: nat)
    requires Sound(m, s) && i < |s| && left + TotalUpto(s, i) == Total(s)
    ensures 0 < s[i].length <= left && Piece(s[i], 0, s[i].length) == s[i]
    ensures Min(left, Over(s[i].length, 0)) == s[i].length
  {
    assert RefOk(m, s[i]);
    TotalMonotone(s, i + 1, |s|);
  }

  ghost predicate NotSharingAll(m: Mem, s: seq<BlockRef>, i: nat, t: seq<BlockRef>, end: Outcome) {
    i > |s| || TotalUpto(s, i) > Total(s) || !Sharing(m, s, i, 0, Total(s) - TotalUpto(s, i), t, end)
  }

  /** A loop that shares whole refs is on its way to `end`. */
  ghost predicate SharingAll(m: Mem, s: seq<BlockRef>, i: nat, t: seq<BlockRef>, end: Outcome) {
    !NotSharingAll(m, s, i, t, end)
  }

  lemma SharingAllStart(m: Mem, s: seq<BlockRef>, t: seq<BlockRef>) returns (end: Outcome)
    requires Held2(m, s, t)
    ensures SharingAll(m, s, 0, t, end) && Shared(m, s, t, end.0, end.1, Bytes(m, s))
    ensures SharedFrom(m, s, 0, Total(s), t, end.0, end.1)
  {
    HeldRef(m, s, t, 0);
    hide Shared, Held2, Share, Bytes;
    end := Share(m, s, 0, 0, Total(s), t);
    ShareAll(m, s, t, Total(s));
    assert Total(s) - TotalUpto(s, 0) == Total(s);
  }

  lemma SharingAllOn(m: Mem, s: seq<BlockRef>, i: nat, t: seq<BlockRef>, end: Outcome)
    requires SharingAll(m, s, i, t, end) && i < |s|
    ensures Fits(m, s[i]) && SharingAll(PushMem(m, t, s[i]), s, i + 1, PushBack(t, s[i]), end)
  {
    var n := Total(s) - TotalUpto(s, i);
    assert Held2(m, s, t);
    HeldRef(m, s, t, i);
    WholeRef(m, s, i, n);
    hide Sharing, Held2, PushMem, PushBack;
    SharingOn(m, s, i, 0, n, t, end, s[i].length);
    assert n - s[i].length == Total(s) - TotalUpto(s, i + 1);
  }

  lemma SharingAllDone(m0: Mem, t0: seq<BlockRef>, x: seq<Byte>, m: Mem, s: seq<BlockRef>, t: seq<BlockRef>,
    end: Outcome)
    requires SharingAll(m, s, |s|, t, end) && Shared(m0, s, t0, end.0, end.1, x)
    ensures Shared(m0, s, t0, m, t, x) && end.0 == m && end.1 == t
  {
    hide Shared, Held2;
    SharingDone(m0, t0, x, m, s, |s|, 0, 0, t, end);
  }

  // ---- append of a buffer that is given up ----

  lemma MoveAllOn(m: Mem, s: seq<BlockRef>, i: nat, t: seq<BlockRef>)
    requires i < |s| && Held2(m, s[i..], t)
    ensures var m1, t1 := MoveMem(m, t, s[i]), PushBack(t, s[i]);
      && Fits(m, s[i]) && Held2(m1, s[i + 1..], t1)
      && Carry(m, s[i..], t, Total(s[i..])) == Carry(m1, s[i + 1..], t1, Total(s[i + 1..]))
  {
    var u := s[i..];
    assert u[0] == s[i] && u[1..] == s[i + 1..];
    First(m, u);
    HeldRef(m, u, t, 0);
    CarryRef(m, u, t);
  }

  lemma MoveAllDone(m: Mem, s: seq<BlockRef>, t: seq<BlockRef>)
    ensures Carry(m, s[|s|..], t, Total(s[|s|..])) == (m, [], t)
  {
  }

  // ---- operator= ----

  /** What a buffer sees of another one being cleared. */
  lemma ClearedBeside(m: Mem, s: seq<BlockRef>, t: seq<BlockRef>, m1: Mem)
    requires Held2(m, t, s) && Effect(m, Claims(s), m1, multiset{})
    ensures Held(m1, t) && Eq(Bytes(m1, t), Bytes(m, t)) && Effect(m, Claims(t) + Claims(s), m1, Claims(t))
  {
    assert Claims(s) + Claims(t) == Claims(t) + Claims(s) && multiset{} + Claims(t) == Claims(t);
    EffectFrame(m, Claims(s), m1, multiset{}, Claims(t));
    BystanderBytes(m, Claims(s), m1, multiset{}, t);
  }

  lemma AssignEffect(m: Mem, s: seq<BlockRef>, t: seq<BlockRef>, m1: Mem, m2: Mem)
    requires Effect(m, Claims(t) + Claims(s), m1, Claims(t)) && Shared(m1, t, [], m2, t, Bytes(m1, t))
    requires Eq(Bytes(m1, t), Bytes(m, t))
    ensures Effect(m, Claims(t) + Claims(s), m2, Claims(t) + Claims(t)) && Held2(m2, t, t)
    ensures Eq(Bytes(m2, t), Bytes(m, t))
  {
    assert Claims(t) + Claims([]) == Claims(t);
    EffectTrans(m, Claims(t) + Claims(s), m1, Claims(t), m2, Claims(t) + Claims(t));
  }

  lemma CopyMemIs(m: Mem, s: seq<BlockRef>, t: seq<BlockRef>)
    ensures CopyMem(m, s, t) == IncUpto(DropAll(m, t), s, |s|)
  {
  }

  lemma IncUptoStart(m: Mem, s: seq<BlockRef>)
    ensures IncUpto(m, s, 0) == m
  {
  }

  lemma IncUptoOn(m: Mem, s: seq<BlockRef>, i: nat)
    requires Held(m, s) && i < |s|
    ensures s[i].block in IncUpto(m, s, i) && IncUpto(m, s, i + 1) == IncRef(IncUpto(m, s, i), s[i].block)
  {
    IncUptoEffect(m, s, i);
    assert RefOk(m, s[i]);
  }

  // ---- equals ----

  lemma SoundLength(m: Mem, s: seq<BlockRef>)
    requires Sound(m, s)
    ensures |Bytes(m, s)| == Total(s) && (Total(s) > 0 ==> |s| > 0)
  {
    BytesLength(m, s);
  }

  ghost predicate NotMatching(m: Mem, s: seq<BlockRef>, t: seq<BlockRef>, i: nat, o1: nat, j: nat, o2: nat) {
    || !Sound(m, s) || !Sound(m, t) || (i < |s| && o1 >= s[i].length) || (j < |t| && o2 >= t[j].length)
    || |Rest(m, s, i, o1)| != |Rest(m, t, j, o2)|
    || (Eq(Bytes(m, s), Bytes(m, t)) != Eq(Rest(m, s, i, o1), Rest(m, t, j, o2)))
  }

  /** The two buffers are equal just when what is left of them from the two cursors on is equal. */
  ghost predicate Matching(m: Mem, s: seq<BlockRef>, t: seq<BlockRef>, i: nat, o1: nat, j: nat, o2: nat) {
    !NotMatching(m, s, t, i, o1, j, o2)
  }

  lemma MatchingFacts(m: Mem, s: seq<BlockRef>, t: seq<BlockRef>, i: nat, o1: nat, j: nat, o2: nat)
    requires Matching(m, s, t, i, o1, j, o2)
    ensures (i < |s| ==> o1 < s[i].length) && (j < |t| ==> o2 < t[j].length)
  {
  }

  lemma RestAll(m: Mem, s: seq<BlockRef>)
    ensures Eq(Rest(m, s, 0, 0), Bytes(m, s))
  {
    RestFrom(m, s, 0);
    UptoFrom(m, s, 0);
    Nil(BytesFrom(m, s, 0));
  }

  lemma MatchingStart(m: Mem, s: seq<BlockRef>, t: seq<BlockRef>)
    requires Sound(m, s) && Sound(m, t) && |Bytes(m, s)| == |Bytes(m, t)|
    ensures Matching(m, s, t, 0, 0, 0, 0)
  {
    RefFacts(m, s, 0);
    RefFacts(m, t, 0);
    RestAll(m, s);
    RestAll(m, t);
    hide Sound, Bytes, Rest;
  }

  /** The next cursor after `c` more bytes of the `i`-th ref. */
  function NextI(s: seq<BlockRef>, i: nat, off: nat, c: nat): nat {
    if i < |s| && off + c < s[i].length then i else i + 1
  }

  function NextOff(s: seq<BlockRef>, i: nat, off: nat, c: nat): nat {
    if i < |s| && off + c < s[i].length then off + c else 0
  }

  /** What is left from a cursor on is the next `c` bytes before what is left from the next cursor on. */
  lemma RestOn(m: Mem, s: seq<BlockRef>, i: nat, off: nat, c: nat)
    requires Sound(m, s) && i < |s| && off + c <= s[i].length && 0 < c
    ensures var x := Slice(m, Piece(s[i], off, c));
      |x| == c && Eq(Rest(m, s, i, off), x + Rest(m, s, NextI(s, i, off, c), NextOff(s, i, off, c)))
  {
    hide Slice, Piece, BytesFrom, Sound, RefOk, MemOk;
    SoundRef(m, s, i);
    PieceParts(m, s[i], off, c);
    RestFrom(m, s, i + 1);
    if off + c < s[i].length {
      Assoc(Slice(m, Piece(s[i], off, c)), Slice(m, Piece(s[i], off + c, Over(s[i].length, off + c))),
        BytesFrom(m, s, i + 1));
    }
  }

  lemma SoundRef(m: Mem, s: seq<BlockRef>, i: nat)
    requires Sound(m, s) && i < |s|
    ensures MemOk(m) && RefOk(m, s[i])
  {
  }

  lemma PieceParts(m: Mem, r: BlockRef, off: nat, c: nat)
    requires MemOk(m) && RefOk(m, r) && 0 < c && off + c <= r.length
    ensures |Slice(m, Piece(r, off, c))| == c
    ensures off + c == r.length ==> Piece(r, off, c) == Piece(r, off, Over(r.length, off))
    ensures off + c < r.length ==> Eq(Slice(m, Piece(r, off, Over(r.length, off))),
      Slice(m, Piece(r, off, c)) + Slice(m, Piece(r, off + c, Over(r.length, off + c))))
  {
    SliceLength(m, Piece(r, off, c));
    if off + c < r.length {
      var t := Piece(r, off, Over(r.length, off));
      SliceParts(m, t, c);
      assert Piece(t, 0, c) == Piece(r, off, c)
        && Piece(t, c, Over(t.length, c)) == Piece(r, off + c, Over(r.length, off + c));
    }
  }

  lemma MatchingOn(m: Mem, s: seq<BlockRef>, t: seq<BlockRef>, i: nat, o1: nat, j: nat, o2: nat, c: nat)
    requires Matching(m, s, t, i, o1, j, o2) && i < |s| && j < |t|
    requires c == if s[i].length - o1 < t[j].length - o2 then s[i].length - o1 else t[j].length - o2
    ensures 0 < c
    ensures var x, y := Slice(m, Piece(s[i], o1, c)), Slice(m, Piece(t[j], o2, c));
      var i1, p1, j1, p2 := NextI(s, i, o1, c), NextOff(s, i, o1, c), NextI(t, j, o2, c), NextOff(t, j, o2, c);
      && (x != y ==> !Eq(Bytes(m, s), Bytes(m, t)))
      && (x == y ==> Matching(m, s, t, i1, p1, j1, p2) && |Rest(m, s, i1, p1)| < |Rest(m, s, i, o1)|)
  {
    var x, y := Slice(m, Piece(s[i], o1, c)), Slice(m, Piece(t[j], o2, c));
    var i1, p1, j1, p2 := NextI(s, i, o1, c), NextOff(s, i, o1, c), NextI(t, j, o2, c), NextOff(t, j, o2, c);
    RestOn(m, s, i, o1, c);
    RestOn(m, t, j, o2, c);
    RefFacts(m, s, i + 1);
    RefFacts(m, t, j + 1);
    EqualParts(Rest(m, s, i, o1), x, Rest(m, s, i1, p1), Rest(m, t, j, o2), y, Rest(m, t, j1, p2));
    hide Sound, Bytes, Rest, Slice, Piece;
  }

  /** Where the loop goes on, or why it may stop. */
  lemma MatchingEnds(m: Mem, s: seq<BlockRef>, t: seq<BlockRef>, i: nat, o1: nat, j: nat, o2: nat, c: nat)
    requires Matching(m, s, t, NextI(s, i, o1, c), NextOff(s, i, o1, c), NextI(t, j, o2, c), NextOff(t, j, o2, c))
    requires i < |s| && j < |t| && o1 + c <= s[i].length && o2 + c <= t[j].length
    ensures NextI(s, i, o1, c) == (if o1 + c < s[i].length then i else i + 1)
    ensures NextOff(s, i, o1, c) == (if o1 + c < s[i].length then o1 + c else 0)
    ensures NextI(t, j, o2, c) == (if o2 + c < t[j].length then j else j + 1)
    ensures NextOff(t, j, o2, c) == (if o2 + c < t[j].length then o2 + c else 0)
    ensures NextI(s, i, o1, c) >= |s| || NextI(t, j, o2, c) >= |t| ==> Eq(Bytes(m, s), Bytes(m, t))
  {
    var i1, p1, j1, p2 := NextI(s, i, o1, c), NextOff(s, i, o1, c), NextI(t, j, o2, c), NextOff(t, j, o2, c);
    if i1 >= |s| || j1 >= |t| {
      EmptySame(Rest(m, s, i1, p1), Rest(m, t, j1, p2));
    }
  }
}
