/** IOBufCutter: a cursor that cuts bytes off the front of a buffer with little work per byte. */
module Cutters {
  import opened Chunks
  import opened Blocks
  import opened RefLists
  import opened RefSteps
  import opened RefRuns
  import opened RefLoops
  import opened RefQueues
  import opened IOBufs
  import opened Recounts
  import opened CutterSteps

  class IOBufCutter {
    const buf: IOBuf
    var block: BlockId    // the block of the loaded ref, or NULL
    var data: nat         // where in the block the next byte is
    var dataEnd: nat

    /** The loaded ref is the first one of `s`. */
    ghost predicate Over(s: seq<BlockRef>)
      reads this
    {
      if block == NULL then data == 0 && dataEnd == 0 else
        s != [] && s[0].block == block && s[0].offset <= data <= dataEnd == s[0].offset + s[0].length
    }

    /** How much of the first ref is used up. */
    ghost function UsedOf(s: seq<BlockRef>): nat
      reads this
    {
      if block == NULL || s == [] || data < s[0].offset then 0 else data - s[0].offset
    }

    ghost predicate Fine(h: Heap)
      reads this, buf.q, buf.q.ring, h
    {
      buf.q.Valid() && Held(h.m, buf.q.Refs()) && Over(buf.q.Refs())
    }

    ghost function Used(): nat
      reads this, buf.q, buf.q.ring
      requires buf.q.Valid()
    {
      UsedOf(buf.q.Refs())
    }

    constructor (buf: IOBuf)
      ensures this.buf == buf && block == NULL && data == 0 && dataEnd == 0
    {
      this.buf, block, data, dataEnd := buf, NULL, 0, 0;
    }

    method RemainingBytes(h: Heap) returns (n: nat)
      requires Fine(h)
      ensures n == |View(h.m, buf.q.Refs(), Used())|
    {
      hide RefQueue.Decode, View, Held;
      HeldLength(h.m, buf.q.Refs());
      ViewLength(h.m, buf.q.Refs(), Used());
      var size := buf.q.Length();
      if block != NULL {
        TotalBound(buf.q.Refs(), 0);
        var r := buf.q.RefAt(0);
        n := dataEnd - data + size - r.length;
      } else {
        n := size;
      }
    }

    /** The loaded ref is dropped and the next one, if any, is loaded. */
    method LoadNextRef(h: Heap) returns (ok: bool)
      requires Fine(h)
      modifies this, buf.q, buf.q.ring, h`m
      ensures Fine(h) && buf.q.ring == old(buf.q.ring) && Used() == 0 && ok == (block != NULL) == (buf.q.Refs() != [])
      ensures ok ==> data < dataEnd
      ensures buf.q.Refs() == if old(block) == NULL then old(buf.q.Refs()) else old(buf.q.Refs())[1..]
      ensures Stepped(old(h.m), old(buf.q.Refs()), old(Used()), h.m, buf.q.Refs(), 0, old(dataEnd) - old(data))
    {
      hide RefQueue.Decode, View, Held, Stepped, Effect, DecRef;
      ghost var m0, s0, u0 := h.m, buf.q.Refs(), Used();
      if block != NULL {
        var r := buf.q.RefAt(0);
        HeldFront(h.m, s0);
        DropRefStep(m0, s0, u0, dataEnd - data);
        h.DecRef(r.block);
        var _ := buf.q.PopFront();
      } else {
        SteppedNone(m0, s0, u0);
      }
      SteppedFacts(m0, s0, u0, h.m, buf.q.Refs(), 0, old(dataEnd) - old(data));
      var num := buf.q.RefNum();
      if num == 0 {
        block, data, dataEnd := NULL, 0, 0;
        return false;
      }
      HeldFront(h.m, buf.q.Refs());
      var r := buf.q.RefAt(0);
      block, data, dataEnd := r.block, r.offset, r.offset + r.length;
      return true;
    }

    method Cut1(h: Heap) returns (ok: bool, c: Byte)
      requires Fine(h)
      modifies this, buf.q, buf.q.ring, h`m
      ensures Fine(h) && buf.q.ring == old(buf.q.ring)
      ensures var v := View(old(h.m), old(buf.q.Refs()), old(Used())); ok == (|v| > 0) && (ok ==> c == v[0])
      ensures Stepped(old(h.m), old(buf.q.Refs()), old(Used()), h.m, buf.q.Refs(), Used(), if ok then 1 else 0)
    {
      hide RefQueue.Decode, View, Held, Stepped, Effect;
      ghost var m0, s0, u0 := h.m, buf.q.Refs(), Used();
      SteppedNone(m0, s0, u0);
      if data == dataEnd {
        ok := LoadNextRef(h);
        if !ok {
          ViewEnd(m0, s0, u0, h.m, buf.q.Refs());
          return false, 0;
        }
      }
      ghost var m1, s1, u1 := h.m, buf.q.Refs(), Used();
      UseStep(m1, s1, u1, 1);
      SteppedTrans(m0, s0, u0, m1, s1, u1, 0, m1, s1, u1 + 1, 1, 1);
      NextByte(m0, s0, u0, m1, s1, u1);
      ok, c := true, h.m[block].data[data];
      data := data + 1;
    }

    /** The byte behind the pointer that fetch1 returns. */
    method Fetch1(h: Heap) returns (ok: bool, c: Byte)
      requires Fine(h)
      modifies this, buf.q, buf.q.ring, h`m
      ensures Fine(h) && buf.q.ring == old(buf.q.ring)
      ensures var v := View(old(h.m), old(buf.q.Refs()), old(Used())); ok == (|v| > 0) && (ok ==> c == v[0])
      ensures Stepped(old(h.m), old(buf.q.Refs()), old(Used()), h.m, buf.q.Refs(), Used(), 0)
    {
      hide RefQueue.Decode, View, Held, Stepped, Effect;
      ghost var m0, s0, u0 := h.m, buf.q.Refs(), Used();
      SteppedNone(m0, s0, u0);
      if data == dataEnd {
        ok := LoadNextRef(h);
        if !ok {
          ViewEnd(m0, s0, u0, h.m, buf.q.Refs());
          return false, 0;
        }
      }
      NextByte(m0, s0, u0, h.m, buf.q.Refs(), Used());
      ok, c := true, h.m[block].data[data];
    }

    method PopFront(n: nat, h: Heap) returns (popped: nat)
      requires Fine(h)
      modifies this, buf.q, buf.q.ring, h`m
      ensures Fine(h) && buf.q.ring == old(buf.q.ring)
      ensures var v := View(old(h.m), old(buf.q.Refs()), old(Used())); popped == if n < |v| then n else |v|
      ensures Stepped(old(h.m), old(buf.q.Refs()), old(Used()), h.m, buf.q.Refs(), Used(), popped)
    {
      hide RefQueue.Decode, View, Held, Stepped, Effect;
      ghost var m0, s0, u0 := h.m, buf.q.Refs(), Used();
      SteppedNone(m0, s0, u0);
      var left: nat := n;
      while true
        invariant Fine(h) && buf.q.ring == old(buf.q.ring) && left <= n
        invariant Stepped(m0, s0, u0, h.m, buf.q.Refs(), Used(), n - left)
        decreases |buf.q.Refs()|, block == NULL
      {
        ghost var m1, s1, u1 := h.m, buf.q.Refs(), Used();
        var size := dataEnd - data;
        if left <= size {
          if block != NULL {
            UseStep(m1, s1, u1, left);
            SteppedTrans(m0, s0, u0, m1, s1, u1, n - left, m1, s1, u1 + left, left, n);
            data := data + left;
          }
          SteppedFacts(m0, s0, u0, h.m, buf.q.Refs(), Used(), n);
          return n;
        }
        var ok := LoadNextRef(h);
        SteppedTrans(m0, s0, u0, m1, s1, u1, n - left, h.m, buf.q.Refs(), 0, size, n - left + size);
        left := left - size;
        if !ok {
          SteppedAll(m0, s0, u0, h.m, buf.q.Refs(), n - left);
          return n - left;
        }
      }
    }

    method CopyTo(n: nat, h: Heap) returns (out: seq<Byte>)
      requires Fine(h)
      modifies this, buf.q, buf.q.ring, h`m
      ensures Fine(h) && buf.q.ring == old(buf.q.ring)
      ensures Eq(out, Take(View(old(h.m), old(buf.q.Refs()), old(Used())), n))
      ensures Stepped(old(h.m), old(buf.q.Refs()), old(Used()), h.m, buf.q.Refs(), Used(), 0)
    {
      hide RefQueue.Decode, View, Held, Stepped, Effect, Take, Slice, Eq;
      ghost var m0, s0, u0 := h.m, buf.q.Refs(), Used();
      SteppedNone(m0, s0, u0);
      var size := dataEnd - data;
      if n <= size {
        out := Loaded(n, h);
        return;
      }
      out := SlowerCopyTo(n, h);
    }

    /** The next `n` bytes of the loaded ref. */
    method Loaded(n: nat, h: Heap) returns (out: seq<Byte>)
      requires Fine(h) && data + n <= dataEnd
      ensures Eq(out, Take(View(h.m, buf.q.Refs(), Used()), n)) && |out| == n
    {
      hide RefQueue.Decode, View, Held, Stepped, Effect, Eq, Slice, Take;
      if block == NULL {
        out := [];
        TakeNone(View(h.m, buf.q.Refs(), Used()));
        EqSym(Take(View(h.m, buf.q.Refs(), Used()), 0), []);
      } else {
        UseStep(h.m, buf.q.Refs(), Used(), n);
        PieceLength(h.m, buf.q.Refs(), Used(), n);
        out := Slice(h.m, BlockRef(data, n, block));
        EqSym(Take(View(h.m, buf.q.Refs(), Used()), n), out);
      }
    }

    method SlowerCopyTo(n: nat, h: Heap) returns (out: seq<Byte>)
      requires Fine(h) && n > dataEnd - data
      modifies this, buf.q, buf.q.ring, h`m
      ensures Fine(h) && buf.q.ring == old(buf.q.ring)
      ensures Eq(out, Take(View(old(h.m), old(buf.q.Refs()), old(Used())), n))
      ensures Stepped(old(h.m), old(buf.q.Refs()), old(Used()), h.m, buf.q.Refs(), Used(), 0)
    {
      hide RefQueue.Decode, View, Held, Stepped, Effect, Take, Slice, Eq;
      ghost var m0, s0, u0 := h.m, buf.q.Refs(), Used();
      SteppedNone(m0, s0, u0);
      var size := dataEnd - data;
      if size == 0 {
        var ok := LoadNextRef(h);
        if !ok {
          TakeOfNothing(m0, s0, u0, h.m, buf.q.Refs(), n);
          return [];
        }
        SameView(m0, s0, u0, h.m, buf.q.Refs(), Used(), n);
        size := dataEnd - data;
        if n <= size {
          out := Loaded(n, h);
          EqIs(out, Take(View(h.m, buf.q.Refs(), Used()), n), Take(View(m0, s0, u0), n));
          return;
        }
      }
      SameView(m0, s0, u0, h.m, buf.q.Refs(), Used(), n);
      out := CopyRefs(n, size, h);
      EqIs(out, Take(View(h.m, buf.q.Refs(), Used()), n), Take(View(m0, s0, u0), n));
    }

    /** All of the loaded ref and as much of the following ones as is wanted. */
    method CopyRefs(n: nat, size: nat, h: Heap) returns (out: seq<Byte>)
      requires Fine(h) && size == dataEnd - data < n && block != NULL
      ensures Eq(out, Take(View(h.m, buf.q.Refs(), Used()), n))
    {
      hide RefQueue.Decode, View, Held, Take, Slice, Eq, Bytes, BytesFrom;
      ghost var s, all := buf.q.Refs(), Take(View(h.m, buf.q.Refs(), Used()), n);
      HeldLength(h.m, s);
      CopyFirst(h.m, s, Used(), size, n);
      out := Slice(h.m, BlockRef(data, size, block));
      var left: nat := n - size;
      var nref := buf.q.RefNum();
      for i := 1 to nref
        invariant Eq(out + Take(BytesFrom(h.m, s, i), left), all)
      {
        var r := buf.q.RefAt(i);
        var nc := if left < r.length then left else r.length;
        CopyNext(h.m, s, i, out, left, nc);
        EqIs((out + Slice(h.m, Head(r, nc))) + Take(BytesFrom(h.m, s, i + 1), left - nc),
          out + Take(BytesFrom(h.m, s, i), left), all);
        out := out + Slice(h.m, Head(r, nc));
        left := left - nc;
        if left == 0 {
          CopyEnd(h.m, s, i + 1, out, 0);
          EqIs(out, out + Take(BytesFrom(h.m, s, i + 1), 0), all);
          return;
        }
      }
      CopyEnd(h.m, s, nref, out, left);
      EqIs(out, out + Take(BytesFrom(h.m, s, nref), left), all);
    }

    /** The loaded ref is dropped and nothing is loaded. */
    method Unload(h: Heap)
      requires Fine(h) && block != NULL
      modifies this, buf.q, buf.q.ring, h`m
      ensures Fine(h) && buf.q.ring == old(buf.q.ring) && block == NULL
      ensures Stepped(old(h.m), old(buf.q.Refs()), old(Used()), h.m, buf.q.Refs(), 0, old(dataEnd) - old(data))
    {
      hide RefQueue.Decode, View, Held, Stepped, Effect, DecRef;
      ghost var m0, s0, u0, k := h.m, buf.q.Refs(), Used(), dataEnd - data;
      HeldFront(m0, s0);
      DropRefStep(m0, s0, u0, k);
      SteppedFacts(m0, s0, u0, Blocks.DecRef(m0, block), s0[1..], 0, k);
      h.DecRef(block);
      var _ := buf.q.PopFront();
      block, data, dataEnd := NULL, 0, 0;
    }

    /** cutn into plain memory. */
    method CutnBytes(n: nat, h: Heap) returns (out: seq<Byte>)
      requires Fine(h)
      modifies this, buf.q, buf.q.ring, h`m
      ensures Fine(h) && buf.q.ring == old(buf.q.ring)
      ensures Eq(out, Take(View(old(h.m), old(buf.q.Refs()), old(Used())), n))
      ensures Stepped(old(h.m), old(buf.q.Refs()), old(Used()), h.m, buf.q.Refs(), Used(), |out|)
    {
      hide RefQueue.Decode, View, Held, Stepped, Effect, Take, Slice, Eq, Left, Bytes, DropFront, Recounted;
      ghost var m0, s0, u0 := h.m, buf.q.Refs(), Used();
      SteppedNone(m0, s0, u0);
      if n == 0 {
        TakeNone(View(m0, s0, u0));
        EqSym(Take(View(m0, s0, u0), 0), []);
        return [];
      }
      var size := dataEnd - data;
      if n <= size {
        UseStep(m0, s0, u0, n);
        out := Loaded(n, h);
        data := data + n;
        return;
      }
      var first := Loaded(size, h);
      if block != NULL {
        Unload(h);
      }
      ghost var m1, s1 := h.m, buf.q.Refs();
      var rest := buf.CutnBytes(n - size, h);
      DropFrontRecounts(m1, s1, |rest|);
      CutRest(m0, s0, u0, m1, s1, size, h.m, buf.q.Refs(), first, rest, n);
      out := first + rest;
    }

    /** cutn into another buffer. */
    method Cutn(out: IOBuf, n: nat, h: Heap) returns (moved: nat)
      requires Fine(h) && out.q.Valid() && out.q != buf.q && out.q.ring != buf.q.ring
      requires Held2(h.m, buf.q.Refs(), out.q.Refs())
      modifies this, buf.q, buf.q.ring, out.q, out.q.ring, h`m
      ensures Fine(h) && out.q.Valid() && buf.q.ring == old(buf.q.ring)
        && (out.q.ring == old(out.q.ring) || fresh(out.q.ring))
      ensures var v := View(old(h.m), old(buf.q.Refs()), old(Used())); moved == if n < |v| then n else |v|
      ensures Ferried(old(h.m), old(buf.q.Refs()), old(Used()), old(out.q.Refs()), h.m, buf.q.Refs(), Used(),
        out.q.Refs(), moved)
    {
      hide RefQueue.Decode, View, Held, Held2, Stepped, Effect, Ferried, Moved, Bytes, PushMem, PushBack;
      ghost var m0, s0, u0, t0 := h.m, buf.q.Refs(), Used(), out.q.Refs();
      FineUsed(s0, u0, block, data, dataEnd);
      FerriedNone(m0, s0, u0, t0);
      if n == 0 {
        return 0;
      }
      var size := dataEnd - data;
      if n <= size {
        FerriedPush(m0, s0, u0, t0, n);
        out.PushBackRef(BlockRef(data, n, block), h);
        FerriedFacts(m0, s0, u0, t0, h.m, s0, u0 + n, out.q.Refs(), n);
        Held2Each(h.m, s0, out.q.Refs());
        data := data + n;
        return n;
      }
      if size != 0 {
        FerriedPush(m0, s0, u0, t0, size);
        out.PushBackRef(BlockRef(data, size, block), h);
        FerriedFacts(m0, s0, u0, t0, h.m, s0, u0 + size, out.q.Refs(), size);
        Held2Each(h.m, s0, out.q.Refs());
        data := dataEnd;
      }
      moved := CutnUsedUp(out, n - size, h, m0, s0, u0, t0, size);
      moved := size + moved;
    }

    /** The loaded ref is used up: the rest comes from the buffer. */
    method CutnUsedUp(out: IOBuf, n: nat, h: Heap, ghost m0: Mem, ghost s0: seq<BlockRef>, ghost u0: nat,
      ghost t0: seq<BlockRef>,
      ghost k: nat) returns (moved: nat)
      requires Fine(h) && data == dataEnd && out.q.Valid() && out.q != buf.q && out.q.ring != buf.q.ring
      requires Held2(h.m, buf.q.Refs(), out.q.Refs())
        && Ferried(m0, s0, u0, t0, h.m, buf.q.Refs(), Used(), out.q.Refs(), k)
      modifies this, buf.q, buf.q.ring, out.q, out.q.ring, h`m
      ensures Fine(h) && out.q.Valid() && buf.q.ring == old(buf.q.ring)
        && (out.q.ring == old(out.q.ring) || fresh(out.q.ring))
      ensures moved == if k + n < |View(m0, s0, u0)| then n else |View(m0, s0, u0)| - k
      ensures Ferried(m0, s0, u0, t0, h.m, buf.q.Refs(), Used(), out.q.Refs(), k + moved)
    {
      hide RefQueue.Decode, View, Held, Held2, Stepped, Effect, Ferried, Moved, Bytes, Carry, Recounted;
      ghost var m1, s1, u1, t1 := h.m, buf.q.Refs(), Used(), out.q.Refs();
      if block != NULL {
        Unload(h);
      } else {
        SteppedNone(m1, s1, u1);
      }
      ghost var m2, s2 := h.m, buf.q.Refs();
      FerriedBeside(m1, s1, u1, t1, m2, s2, 0);
      FerriedTrans(m0, s0, u0, t0, m1, s1, u1, t1, k, m2, s2, 0, t1, 0, k);
      FerriedFacts(m0, s0, u0, t0, m2, s2, 0, t1, k);
      ViewBytes(m2, s2);
      moved := buf.Cutn(out, n, h);
      CarryRecounts(m2, s2, t1, moved);
      FerriedMoved(m2, s2, t1, h.m, buf.q.Refs(), out.q.Refs(), moved);
      FerriedTrans(m0, s0, u0, t0, m2, s2, 0, t1, k, h.m, buf.q.Refs(), 0, out.q.Refs(), moved, k + moved);
      FerriedFacts(m0, s0, u0, t0, h.m, buf.q.Refs(), 0, out.q.Refs(), k + moved);
      Held2Each(h.m, buf.q.Refs(), out.q.Refs());
    }
  }

  lemma HeldFront(m: Mem, s: seq<BlockRef>)
    requires Held(m, s) && s != []
    ensures s[0].block in m && s[0].block != NULL && 0 < s[0].length
  {
    assert RefOk(m, s[0]);
  }

  lemma SteppedAll(m0: Mem, s0: seq<BlockRef>, u0: nat, m: Mem, s: seq<BlockRef>, k: nat)
    requires Stepped(m0, s0, u0, m, s, 0, k) && s == []
    ensures k == |View(m0, s0, u0)|
  {
  }

  /** Nothing could be loaded, so nothing was left. */
  lemma ViewEnd(m0: Mem, s0: seq<BlockRef>, u0: nat, m: Mem, s: seq<BlockRef>)
    requires Stepped(m0, s0, u0, m, s, 0, 0) && s == []
    ensures |View(m0, s0, u0)| == 0
  {
  }

  lemma ViewHead(m: Mem, s: seq<BlockRef>, u: nat)
    requires Held(m, s) && s != [] && u < s[0].length
    ensures s[0].block in m && s[0].offset + u < |m[s[0].block].data|
    ensures |View(m, s, u)| > 0 && View(m, s, u)[0] == m[s[0].block].data[s[0].offset + u]
  {
    assert RefOk(m, s[0]);
    var x := Slice(m, Piece(s[0], u, 1));
    SubIs(m[s[0].block].data, s[0].offset + u, 1);
    assert x[0] == m[s[0].block].data[s[0].offset + u];
    hide View, Held, Slice, Effect;
    ViewParts(m, s, u, 1);
  }

  lemma NextByte(m0: Mem, s0: seq<BlockRef>, u0: nat, m: Mem, s: seq<BlockRef>, u: nat)
    requires Stepped(m0, s0, u0, m, s, u, 0) && s != [] && u < s[0].length
    ensures s[0].block in m && s[0].offset + u < |m[s[0].block].data|
    ensures |View(m0, s0, u0)| > 0 && View(m0, s0, u0)[0] == m[s[0].block].data[s[0].offset + u]
  {
    hide View, Held, Stepped, Effect;
    SteppedFacts(m0, s0, u0, m, s, u, 0);
    ViewHead(m, s, u);
    Whole(View(m0, s0, u0));
  }

  lemma PieceLength(m: Mem, s: seq<BlockRef>, u: nat, n: nat)
    requires Held(m, s) && s != [] && u + n <= s[0].length
    ensures |Slice(m, Piece(s[0], u, n))| == n && Piece(s[0], u, n) == BlockRef(s[0].offset + u, n, s[0].block)
  {
    assert RefOk(m, s[0]);
    SliceLength0(m, s[0], u, n);
  }

  lemma TakeOfNothing(m0: Mem, s0: seq<BlockRef>, u0: nat, m: Mem, s: seq<BlockRef>, n: nat)
    requires Stepped(m0, s0, u0, m, s, 0, 0) && s == []
    ensures Eq([], Take(View(m0, s0, u0), n))
  {
    ViewEnd(m0, s0, u0, m, s);
    assert View(m0, s0, u0) == [];
  }

  lemma SameView(m0: Mem, s0: seq<BlockRef>, u0: nat, m: Mem, s: seq<BlockRef>, u: nat, n: nat)
    requires Stepped(m0, s0, u0, m, s, u, 0)
    ensures Eq(Take(View(m, s, u), n), Take(View(m0, s0, u0), n))
  {
    Whole(View(m0, s0, u0));
  }

  /** What the buffer gives after the loaded ref. */
  lemma CutRest(m0: Mem, s0: seq<BlockRef>, u0: nat, m1: Mem, s1: seq<BlockRef>, k: nat, m: Mem, s: seq<BlockRef>,
    x: seq<Byte>, y: seq<Byte>, n: nat)
    requires Stepped(m0, s0, u0, m1, s1, 0, k) && k <= n && Eq(x, Take(View(m0, s0, u0), k))
    requires Eq(y, Take(Bytes(m1, s1), n - k)) && Left(m1, s1, m, s, |y|, |Bytes(m1, s1)|)
    requires Recounted(m1, m)
    ensures Eq(x + y, Take(View(m0, s0, u0), n)) && Stepped(m0, s0, u0, m, s, 0, |x + y|)
    ensures Held(m, s)
  {
    hide View, Bytes, Left, Stepped, Held, Take, Recounted;
    ViewWhole(m1, s1);
    LeftStepped(m1, s1, m, s, |y|, |Bytes(m1, s1)|);
    SteppedFacts(m0, s0, u0, m1, s1, 0, k);
    SteppedFacts(m1, s1, 0, m, s, 0, |y|);
    TakeParts(View(m0, s0, u0), View(m1, s1, 0), x, y, k, n);
    SteppedTrans(m0, s0, u0, m1, s1, 0, k, m, s, 0, |y|, |x + y|);
  }

  lemma FineUsed(s: seq<BlockRef>, u: nat, block: BlockId, data: nat, dataEnd: nat)
    requires if block == NULL then u == 0 else
      s != [] && s[0].offset <= data <= dataEnd == s[0].offset + s[0].length && u == data - s[0].offset
    ensures UsedOk(s, u)
  {
  }

  lemma ViewBytes(m: Mem, s: seq<BlockRef>)
    ensures |View(m, s, 0)| == |Bytes(m, s)|
  {
    ViewWhole(m, s);
  }
}
