/**
 Bytes of a buffer that nobody else refers to. unsafe_assign may write them anew: the buffer sees the new
 bytes and no other buffer sees a change.
 */
module Privacy {
  import opened Chunks
  import opened Blocks
  import opened RefPlaces
  import opened TlsBlocks
  import opened Overwrites
  import opened World
  import opened ChainLinks

  predicate IsBuffer(w: State, i: nat) {
    i < |w.holders| && w.holders[i].Buffer?
  }

  function RefsAt(w: State, i: nat): seq<BlockRef>
    requires IsBuffer(w, i)
  {
    w.holders[i].refs
  }

  function PlacesAt(w: State, i: nat): seq<Place>
    requires IsBuffer(w, i)
  {
    Places(RefsAt(w, i))
  }

  /** No place is in both lists. */
  ghost predicate Apart(ps: seq<Place>, qs: seq<Place>) {
    forall q :: 0 <= q < |qs| ==> qs[q] !in ps
  }

  ghost predicate Overlap(qs: seq<Place>, at: nat, n: nat) {
    || at + n > |qs| || !NoDup(qs[at..at + n])
    || exists q :: 0 <= q < |qs| && !(at <= q < at + n) && qs[q] in qs[at..at + n]
  }

  /** The buffer refers once to each of its `n` bytes from `at` on. */
  ghost predicate Once(qs: seq<Place>, at: nat, n: nat) {
    !Overlap(qs, at, n)
  }

  ghost predicate Exposed(w: State, i: nat, at: nat, n: nat) {
    || !IsBuffer(w, i) || !Once(PlacesAt(w, i), at, n)
    || exists j: nat :: IsBuffer(w, j) && j != i && !Apart(PlacesAt(w, i)[at..at + n], PlacesAt(w, j))
  }

  /** Nothing but the buffer `i` refers to its `n` bytes from `at` on, and it does so once. */
  ghost predicate Private(w: State, i: nat, at: nat, n: nat) {
    !Exposed(w, i, at, n)
  }

  lemma PrivateIs(w: State, i: nat, at: nat, n: nat, j: nat)
    requires Private(w, i, at, n)
    ensures IsBuffer(w, i) && Once(PlacesAt(w, i), at, n) && at + n <= |PlacesAt(w, i)|
    ensures IsBuffer(w, j) && j != i ==> Apart(PlacesAt(w, i)[at..at + n], PlacesAt(w, j))
  {
  }

  // ---- Counters and chains know nothing of the bytes ----

  lemma ShapeBlock(m: Mem, m': Mem, b: BlockId)
    requires SameShape(m, m')
    ensures Cnt(m', b) == Cnt(m, b) && (b in m' <==> b in m)
    ensures b in m ==> m'[b].size == m[b].size && m'[b].cap == m[b].cap && |m'[b].data| == |m[b].data|
    ensures b in m ==> Full(m'[b]) == Full(m[b]) && (BlockOk(m[b]) ==> BlockOk(m'[b]))
  {
    if b in m {
      assert m'[b].(data := m[b].data) == m[b];
    }
  }

  lemma ShapeHolder(m: Mem, m': Mem, x: Holder)
    requires SameShape(m, m') && HolderOk(m, x)
    ensures HolderOk(m', x)
  {
    hide SameShape;
    if x.Buffer? {
      forall k | 0 <= k < |x.refs|
        ensures RefOk(m', x.refs[k])
      {
        ShapeBlock(m, m', x.refs[k].block);
        assert RefOk(m, x.refs[k]);
      }
    }
  }

  lemma ShapeCounted(w: State, m': Mem)
    requires Counted(w) && SameShape(w.m, m')
    ensures Counted(w.(m := m'))
  {
    hide SameShape, HolderOk, BlockOk;
    ShapeBlock(w.m, m', NULL);
    forall b | b in m'
      ensures BlockOk(m'[b])
    {
      ShapeBlock(w.m, m', b);
    }
    forall b: BlockId
      ensures Cnt(m', b) == All(w.holders)[b]
    {
      ShapeBlock(w.m, m', b);
      assert Cnt(w.m, b) == All(w.holders)[b];
    }
    forall i | 0 <= i < |w.holders|
      ensures HolderOk(m', w.holders[i])
    {
      ShapeHolder(w.m, m', w.holders[i]);
    }
  }

  lemma ShapeRoomy(m: Mem, m': Mem, c: seq<BlockId>)
    requires SameShape(m, m') && Roomy(m, c)
    ensures Roomy(m', c)
  {
    hide SameShape;
    forall i | 0 <= i < |c|
      ensures c[i] in m' && !Full(m'[c[i]])
    {
      ShapeBlock(m, m', c[i]);
    }
  }

  lemma ShapeOk(w: State, m': Mem)
    requires Ok(w) && SameShape(w.m, m')
    ensures Ok(w.(m := m'))
  {
    hide SameShape, Counted, Roomy;
    ShapeCounted(w, m');
    var v := w.(m := m');
    forall k: nat | IsPortal(v, k)
      ensures Roomy(v.m, v.holders[k].blocks)
    {
      assert IsPortal(w, k);
      ShapeRoomy(w.m, m', w.holders[k].blocks);
    }
  }

  // ---- What is seen of an assignment ----

  function Assigned(w: State, i: nat, at: nat, x: seq<Byte>): Mem
    requires IsBuffer(w, i) && at + |x| <= |PlacesAt(w, i)|
  {
    Overwrite(w.m, PlacesAt(w, i)[at..at + |x|], x, |x|)
  }

  lemma BufferSound(w: State, i: nat)
    requires Counted(w) && IsBuffer(w, i)
    ensures Sound(w.m, RefsAt(w, i))
  {
    assert HolderOk(w.m, w.holders[i]);
  }

  lemma AssignedOwn(w: State, i: nat, at: nat, x: seq<Byte>)
    requires Counted(w) && Private(w, i, at, |x|)
    ensures at + |x| <= |PlacesAt(w, i)| && at + |x| <= |Bytes(w.m, RefsAt(w, i))|
    ensures Bytes(Assigned(w, i, at, x), RefsAt(w, i)) == Patched(Bytes(w.m, RefsAt(w, i)), at, x)
  {
    hide Counted, Overwrite, Bytes, Places, NoDup, Exposed, Patched;
    PrivateIs(w, i, at, |x|, i);
    BufferSound(w, i);
    OverwriteOwn(w.m, RefsAt(w, i), at, x);
    LengthsAgree(w.m, RefsAt(w, i));
  }

  lemma AssignedOthers(w: State, i: nat, at: nat, x: seq<Byte>, j: nat)
    requires Counted(w) && Private(w, i, at, |x|) && IsBuffer(w, j) && j != i
    ensures at + |x| <= |PlacesAt(w, i)|
    ensures Bytes(Assigned(w, i, at, x), RefsAt(w, j)) == Bytes(w.m, RefsAt(w, j))
  {
    hide Counted, Overwrite, Bytes, Places, NoDup, Exposed, Once;
    PrivateIs(w, i, at, |x|, j);
    BufferSound(w, j);
    var ps := PlacesAt(w, i)[at..at + |x|];
    assert ps[..|x|] == ps;
    OverwriteBeside(w.m, ps, x, RefsAt(w, j));
  }

  lemma AssignedOk(w: State, i: nat, at: nat, x: seq<Byte>)
    requires Ok(w) && IsBuffer(w, i) && at + |x| <= |PlacesAt(w, i)|
    ensures Ok(w.(m := Assigned(w, i, at, x)))
  {
    hide Ok, Overwrite, SameShape, Places;
    OverwriteShape(w.m, PlacesAt(w, i)[at..at + |x|], x, |x|);
    ShapeOk(w, Assigned(w, i, at, x));
  }

  /** The other way round: a second buffer that refers to one of the bytes sees the byte change. */
  lemma ExposedSees(w: State, i: nat, at: nat, x: seq<Byte>, k: nat, j: nat, q: nat)
    requires Counted(w) && IsBuffer(w, i) && IsBuffer(w, j) && at + |x| <= |PlacesAt(w, i)| && k < |x|
    requires NoDup(PlacesAt(w, i)[at..at + |x|]) && q < |PlacesAt(w, j)| && PlacesAt(w, j)[q] == PlacesAt(w, i)[at + k]
    ensures q < |Bytes(w.m, RefsAt(w, j))| == |Bytes(Assigned(w, i, at, x), RefsAt(w, j))|
    ensures Bytes(Assigned(w, i, at, x), RefsAt(w, j))[q] == x[k]
  {
    hide Counted, Overwrite, Bytes, Places, Sound, SameShape;
    var ps, m' := PlacesAt(w, i)[at..at + |x|], Assigned(w, i, at, x);
    BufferSound(w, j);
    OverwriteShape(w.m, ps, x, |x|);
    ShapeSound(w.m, m', RefsAt(w, j));
    LengthsAgree(w.m, RefsAt(w, j));
    LengthsAgree(m', RefsAt(w, j));
    BytePeek(w.m, RefsAt(w, j), q);
    BytePeek(m', RefsAt(w, j), q);
    PeekHit(w.m, ps, x, |x|, k);
  }
}
