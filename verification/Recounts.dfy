/** Operations that only count references: they free blocks and change counters, but no bytes and no sizes. */
module Recounts {
  import opened Blocks
  import opened RefLists
  import opened RefRuns

  /** Every block there is was there before, and is the same but for its counter. */
  ghost predicate Recounted(m: Mem, m': Mem) {
    forall b :: b in m' ==> b in m && m'[b].(nshared := m[b].nshared) == m[b]
  }

  lemma RecountedTrans(m0: Mem, m1: Mem, m2: Mem)
    requires Recounted(m0, m1) && Recounted(m1, m2)
    ensures Recounted(m0, m2)
  {
  }

  lemma CountRecounts(m: Mem, b: BlockId)
    ensures Recounted(m, m) && Recounted(m, IncRef(m, b)) && Recounted(m, DecRef(m, b))
  {
  }

  lemma PushRecounts(m: Mem, s: seq<BlockRef>, r: BlockRef)
    ensures Recounted(m, PushMem(m, s, r)) && Recounted(m, MoveMem(m, s, r))
  {
    CountRecounts(m, r.block);
  }

  lemma {:induction false} DropAllRecounts(m: Mem, s: seq<BlockRef>)
    ensures Recounted(m, DropAll(m, s))
    decreases |s|
  {
    hide Recounted, DecRef;
    if s == [] {
      CountRecounts(m, NULL);
    } else {
      CountRecounts(m, s[0].block);
      DropAllRecounts(DecRef(m, s[0].block), s[1..]);
      RecountedTrans(m, DecRef(m, s[0].block), DropAll(m, s));
    }
  }

  lemma {:induction false} DropFrontRecounts(m: Mem, s: seq<BlockRef>, n: nat)
    ensures Recounted(m, DropFront(m, s, n).0)
    decreases |s|
  {
    hide Recounted, DecRef;
    CountRecounts(m, NULL);
    if n > 0 && s != [] && s[0].length <= n {
      CountRecounts(m, s[0].block);
      DropFrontRecounts(DecRef(m, s[0].block), s[1..], n - s[0].length);
      RecountedTrans(m, DecRef(m, s[0].block), DropFront(m, s, n).0);
    }
  }

  lemma {:induction false} DropBackRecounts(m: Mem, s: seq<BlockRef>, n: nat)
    ensures Recounted(m, DropBack(m, s, n).0)
    decreases |s|
  {
    hide Recounted, DecRef;
    CountRecounts(m, NULL);
    if n > 0 && s != [] && s[|s| - 1].length <= n {
      var k := |s| - 1;
      CountRecounts(m, s[k].block);
      DropBackRecounts(DecRef(m, s[k].block), s[..k], n - s[k].length);
      RecountedTrans(m, DecRef(m, s[k].block), DropBack(m, s, n).0);
    }
  }

  lemma {:induction false} CarryRecounts(m: Mem, s: seq<BlockRef>, t: seq<BlockRef>, n: nat)
    ensures Recounted(m, Carry(m, s, t, n).0)
    decreases |s|
  {
    hide Recounted, MoveMem, PushMem, PushBack;
    CountRecounts(m, NULL);
    if n > 0 && s != [] {
      if s[0].length <= n {
        PushRecounts(m, t, s[0]);
        CarryRecounts(MoveMem(m, t, s[0]), s[1..], PushBack(t, s[0]), n - s[0].length);
        RecountedTrans(m, MoveMem(m, t, s[0]), Carry(m, s, t, n).0);
      } else {
        PushRecounts(m, t, Head(s[0], n));
      }
    }
  }

  lemma {:induction false} ShareRecounts(m: Mem, s: seq<BlockRef>, i: nat, off: nat, n: nat, t: seq<BlockRef>)
    ensures Recounted(m, Share(m, s, i, off, n, t).0)
    decreases |s| - i
  {
    hide Recounted, PushMem, PushBack;
    CountRecounts(m, NULL);
    if n > 0 && i < |s| {
      var k, left := Min(n, Over(s[i].length, off)), Over(n, Over(s[i].length, off));
      var r := Piece(s[i], off, k);
      PushRecounts(m, t, r);
      ShareRecounts(PushMem(m, t, r), s, i + 1, 0, left, PushBack(t, r));
      RecountedTrans(m, PushMem(m, t, r), Share(m, s, i, off, n, t).0);
    }
  }

  lemma {:induction false} IncUptoRecounts(m: Mem, s: seq<BlockRef>, n: nat)
    requires n <= |s|
    ensures Recounted(m, IncUpto(m, s, n))
  {
    hide Recounted, IncRef;
    if n == 0 {
      CountRecounts(m, NULL);
    } else {
      IncUptoRecounts(m, s, n - 1);
      CountRecounts(IncUpto(m, s, n - 1), s[n - 1].block);
      RecountedTrans(m, IncUpto(m, s, n - 1), IncUpto(m, s, n));
    }
  }
}
