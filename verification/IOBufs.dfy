/**
 IOBuf: a queue of refs into counted blocks. The queue is a RefQueue, the blocks and their counters
 are in a Heap. Every operation says what it does to the bytes (Left, Moved, Shared) and, through
 Effect, that the counters move with the refs and that nobody else's bytes change.
 */
module IOBufs {
  import opened Chunks
  import opened Blocks
  import opened RefLists
  import opened RefSteps
  import opened RefRuns
  import opened RefLoops
  import opened RefQueues

  /** The address space, and the chain of blocks a thread keeps for appending (TLSData). */
  class Heap {
    const cap: nat          // payload of a block of the default size
    var m: Mem
    var tls: seq<BlockId>   // block_head and the blocks linked behind it
    var num: int            // num_blocks
    ghost var fails: nat    // how often malloc has failed

    constructor (cap: nat)
      requires 0 < cap < BLOCK_LIMIT
      ensures this.cap == cap && m == map[] && tls == [] && num == 0 && fails == 0
    {
      this.cap, m, tls, num := cap, map[], [], 0;
      fails := 0;
    }

    /** Block::inc_ref */
    method IncRef(b: BlockId)
      requires b in m
      modifies this`m
      ensures m == Blocks.IncRef(old(m), b)
    {
      m := m[b := m[b].(nshared := m[b].nshared + 1)];
    }

    /** Block::dec_ref */
    method DecRef(b: BlockId)
      requires b in m
      modifies this`m
      ensures m == Blocks.DecRef(old(m), b)
    {
      if m[b].nshared <= 1 {
        m := m - {b};
      } else {
        m := m[b := m[b].(nshared := m[b].nshared - 1)];
      }
    }
  }

  class IOBuf {
    const q: RefQueue

    constructor ()
      ensures fresh(q) && fresh(q.ring) && q.Valid() && q.Refs() == []
    {
      q := new RefQueue();
    }

    // ---- Single refs ----

    /** _push_back_ref: the block gets one more reference. */
    method PushBackRef(r: BlockRef, h: Heap)
      requires q.Valid() && Fits(h.m, r)
      modifies q, q.ring, h`m
      ensures q.Valid() && (q.ring == old(q.ring) || fresh(q.ring))
      ensures q.Refs() == PushBack(old(q.Refs()), r) && h.m == PushMem(old(h.m), old(q.Refs()), r)
    {
      hide RefQueue.Decode, PushBack, Merges;
      var merged := q.Add(r);
      if !merged {
        h.IncRef(r.block);
      }
    }

    /** _move_back_ref: the reference of the caller is taken over, or dropped when the ref is merged. */
    method MoveBackRef(r: BlockRef, h: Heap)
      requires q.Valid() && Fits(h.m, r)
      modifies q, q.ring, h`m
      ensures q.Valid() && (q.ring == old(q.ring) || fresh(q.ring))
      ensures q.Refs() == PushBack(old(q.Refs()), r) && h.m == MoveMem(old(h.m), old(q.Refs()), r)
    {
      hide RefQueue.Decode, PushBack, Merges;
      var merged := q.Add(r);
      if merged {
        h.DecRef(r.block);
      }
    }

    // ---- Dropping bytes ----

    /** The references of the buffer are given back; its refs are stale until they are replaced. */
    method ReleaseRefs(h: Heap)
      requires q.Valid() && Held(h.m, q.Refs())
      modifies h`m
      ensures Effect(old(h.m), Claims(q.Refs()), h.m, multiset{}) && h.m == DropAll(old(h.m), q.Refs())
    {
      hide *;
      var n := q.RefNum();
      DropAllEffect(h.m, q.Refs());
      DropAllStart(h.m, q.Refs());
      for i := 0 to n
        invariant q.Valid() && Held(h.m, q.Refs()[i..])
        invariant DropAll(h.m, q.Refs()[i..]) == DropAll(old(h.m), q.Refs())
      {
        DropAllOn(h.m, q.Refs(), i);
        var r := q.RefAt(i);
        h.DecRef(r.block);
      }
      DropAllDone(h.m, q.Refs());
    }

    method Clear(h: Heap)
      requires q.Valid() && Held(h.m, q.Refs())
      modifies q, q.ring, h`m
      ensures q.Valid() && q.ring == old(q.ring) && q.Refs() == []
      ensures Effect(old(h.m), Claims(old(q.Refs())), h.m, multiset{}) && h.m == DropAll(old(h.m), old(q.Refs()))
    {
      ReleaseRefs(h);
      q.Reset();
    }

    method PopFront(n: nat, h: Heap) returns (popped: nat)
      requires q.Valid() && Held(h.m, q.Refs())
      modifies q, q.ring, h`m
      ensures q.Valid() && q.ring == old(q.ring)
      ensures var all := |Bytes(old(h.m), old(q.Refs()))|;
        popped == (if n < all then n else all) && Left(old(h.m), old(q.Refs()), h.m, q.Refs(), popped, all)
      ensures if n < |Bytes(old(h.m), old(q.Refs()))| then (h.m, q.Refs()) == DropFront(old(h.m), old(q.Refs()), n)
        else (h.m, q.Refs()) == (DropAll(old(h.m), old(q.Refs())), [])
    {
      hide *;
      var len := q.Length();
      HeldLength(h.m, q.Refs());
      if n >= len {
        Clear(h);
        NoneLeft(old(h.m), old(q.Refs()), h.m, len);
        return len;
      }
      DropFrontLeft(h.m, q.Refs(), n, len);
      PopFrontRefs(n, h);
      return n;
    }

    method PopFrontRefs(n: nat, h: Heap)
      requires q.Valid() && Held(h.m, q.Refs()) && n <= Total(q.Refs())
      modifies q, q.ring, h`m
      ensures q.Valid() && q.ring == old(q.ring)
      ensures (h.m, q.Refs()) == DropFront(old(h.m), old(q.Refs()), n)
    {
      hide *;
      var left: nat := n;
      while left > 0
        invariant q.Valid() && q.ring == old(q.ring) && Held(h.m, q.Refs()) && left <= Total(q.Refs())
        invariant DropFront(h.m, q.Refs(), left) == DropFront(old(h.m), old(q.Refs()), n)
        decreases |q.Refs()|
      {
        DropFrontOn(h.m, q.Refs(), left);
        var r := q.RefAt(0);
        FitsIs(h.m, r);
        if r.length > left {
          FitsIs(h.m, Tail(r, left));
          TailIs(r, left);
          q.SetRef(0, Tail(r, left));
          return;
        }
        left := left - r.length;
        h.DecRef(r.block);
        var _ := q.PopFront();
      }
      DropFrontDone(h.m, q.Refs());
    }

    method PopBack(n: nat, h: Heap) returns (popped: nat)
      requires q.Valid() && Held(h.m, q.Refs())
      modifies q, q.ring, h`m
      ensures q.Valid() && q.ring == old(q.ring)
      ensures var all := |Bytes(old(h.m), old(q.Refs()))|;
        popped == (if n < all then n else all) && Left(old(h.m), old(q.Refs()), h.m, q.Refs(), 0, all - popped)
      ensures if n < |Bytes(old(h.m), old(q.Refs()))| then (h.m, q.Refs()) == DropBack(old(h.m), old(q.Refs()), n)
        else (h.m, q.Refs()) == (DropAll(old(h.m), old(q.Refs())), [])
    {
      hide *;
      var len := q.Length();
      HeldLength(h.m, q.Refs());
      if n >= len {
        Clear(h);
        NoneLeft(old(h.m), old(q.Refs()), h.m, 0);
        return len;
      }
      DropBackLeft(h.m, q.Refs(), n, len - n);
      PopBackRefs(n, h);
      return n;
    }

    method PopBackRefs(n: nat, h: Heap)
      requires q.Valid() && Held(h.m, q.Refs()) && n <= Total(q.Refs())
      modifies q, q.ring, h`m
      ensures q.Valid() && q.ring == old(q.ring)
      ensures (h.m, q.Refs()) == DropBack(old(h.m), old(q.Refs()), n)
    {
      hide *;
      var left: nat := n;
      while left > 0
        invariant q.Valid() && q.ring == old(q.ring) && Held(h.m, q.Refs()) && left <= Total(q.Refs())
        invariant DropBack(h.m, q.Refs(), left) == DropBack(old(h.m), old(q.Refs()), n)
        decreases |q.Refs()|
      {
        DropBackOn(h.m, q.Refs(), left);
        var num := q.RefNum();
        var r := q.RefAt(num - 1);
        FitsIs(h.m, r);
        if r.length > left {
          FitsIs(h.m, Head(r, r.length - left));
          TailIs(r, r.length - left);
          q.SetRef(num - 1, Head(r, r.length - left));
          return;
        }
        left := left - r.length;
        h.DecRef(r.block);
        var _ := q.PopBack();
      }
      DropBackDone(h.m, q.Refs());
    }

    // ---- Moving bytes ----

    /** cutn into another buffer. */
    method Cutn(out: IOBuf, n: nat, h: Heap) returns (moved: nat)
      requires q.Valid() && out.q.Valid() && out.q != q && out.q.ring != q.ring && Held2(h.m, q.Refs(), out.q.Refs())
      modifies q, q.ring, out.q, out.q.ring, h`m
      ensures q.Valid() && out.q.Valid() && q.ring == old(q.ring)
        && (out.q.ring == old(out.q.ring) || fresh(out.q.ring))
      ensures var all := |Bytes(old(h.m), old(q.Refs()))|;
        && moved == (if n < all then n else all)
        && Moved(old(h.m), old(q.Refs()), old(out.q.Refs()), h.m, q.Refs(), out.q.Refs(), moved)
        && (h.m, q.Refs(), out.q.Refs()) == Carry(old(h.m), old(q.Refs()), old(out.q.Refs()), moved)
    {
      hide *;
      var len := q.Length();
      Held2Each(h.m, q.Refs(), out.q.Refs());
      HeldLength(h.m, q.Refs());
      moved := if n < len then n else len;
      CarryMoved(h.m, q.Refs(), out.q.Refs(), moved);
      var left: nat := moved;
      while left > 0
        invariant q.Valid() && out.q.Valid() && q.ring == old(q.ring)
        invariant (out.q.ring == old(out.q.ring) || fresh(out.q.ring)) && out.q.ring != q.ring
        invariant Held2(h.m, q.Refs(), out.q.Refs()) && left <= Total(q.Refs())
        invariant Carry(h.m, q.Refs(), out.q.Refs(), left) == Carry(old(h.m), old(q.Refs()), old(out.q.Refs()), moved)
        decreases |q.Refs()|
      {
        CarryOn(h.m, q.Refs(), out.q.Refs(), left);
        var r := q.RefAt(0);
        if r.length <= left {
          left := left - r.length;
          out.MoveBackRef(r, h);
          var _ := q.PopFront();
        } else {
          FitsIs(h.m, Tail(r, left));
          TailIs(r, left);
          out.PushBackRef(Head(r, left), h);
          q.SetRef(0, Tail(r, left));
          return;
        }
      }
      CarryDone(h.m, q.Refs(), out.q.Refs());
    }

    /** cutn into plain memory. */
    method CutnBytes(n: nat, h: Heap) returns (out: seq<Byte>)
      requires q.Valid() && Held(h.m, q.Refs())
      modifies q, q.ring, h`m
      ensures q.Valid() && q.ring == old(q.ring)
      ensures Eq(out, Take(Bytes(old(h.m), old(q.Refs())), n))
      ensures Left(old(h.m), old(q.Refs()), h.m, q.Refs(), |out|, |Bytes(old(h.m), old(q.Refs()))|)
      ensures (h.m, q.Refs()) == DropFront(old(h.m), old(q.Refs()), |out|)
    {
      hide *;
      var len := q.Length();
      HeldLength(h.m, q.Refs());
      var k := if n < len then n else len;
      DropFrontLeft(h.m, q.Refs(), k, len);
      out := CutnRefs(k, h);
      TakeMin(out, Bytes(old(h.m), old(q.Refs())), n, k);
    }

    method CutnRefs(n: nat, h: Heap) returns (out: seq<Byte>)
      requires q.Valid() && Held(h.m, q.Refs()) && n <= Total(q.Refs())
      modifies q, q.ring, h`m
      ensures q.Valid() && q.ring == old(q.ring)
      ensures (h.m, q.Refs()) == DropFront(old(h.m), old(q.Refs()), n)
      ensures Eq(out, Take(Bytes(old(h.m), old(q.Refs())), n))
    {
      hide *;
      out := [];
      Nil(Take(Bytes(h.m, q.Refs()), n));
      var left: nat := n;
      while left > 0
        invariant q.Valid() && q.ring == old(q.ring) && Held(h.m, q.Refs()) && left <= Total(q.Refs())
        invariant DropFront(h.m, q.Refs(), left) == DropFront(old(h.m), old(q.Refs()), n)
        invariant Eq(out + Take(Bytes(h.m, q.Refs()), left), Take(Bytes(old(h.m), old(q.Refs())), n))
        decreases |q.Refs()|
      {
        DropFrontOn(h.m, q.Refs(), left);
        var r := q.RefAt(0);
        FitsIs(h.m, r);
        if r.length <= left {
          TakeFrontRef(h.m, q.Refs(), out, left, left - r.length);
          EqIs((out + Slice(h.m, r)) + Take(Bytes(Blocks.DecRef(h.m, r.block), q.Refs()[1..]), left - r.length),
            out + Take(Bytes(h.m, q.Refs()), left), Take(Bytes(old(h.m), old(q.Refs())), n));
          out := out + Slice(h.m, r);
          left := left - r.length;
          h.DecRef(r.block);
          var _ := q.PopFront();
        } else {
          TakeFrontPart(h.m, q.Refs(), out, left);
          EqIs(out + Slice(h.m, Head(r, left)), out + Take(Bytes(h.m, q.Refs()), left),
            Take(Bytes(old(h.m), old(q.Refs())), n));
          FitsIs(h.m, Tail(r, left));
          TailIs(r, left);
          out := out + Slice(h.m, Head(r, left));
          q.SetRef(0, Tail(r, left));
          return;
        }
      }
      DropFrontDone(h.m, q.Refs());
      TakeNoneAfter(out, Bytes(h.m, q.Refs()));
      EqIs(out, out + Take(Bytes(h.m, q.Refs()), 0), Take(Bytes(old(h.m), old(q.Refs())), n));
    }

    method Cut1(h: Heap) returns (ok: bool, c: Byte)
      requires q.Valid() && Held(h.m, q.Refs())
      modifies q, q.ring, h`m
      ensures q.Valid() && q.ring == old(q.ring)
      ensures ok == (|Bytes(old(h.m), old(q.Refs()))| > 0) && (ok ==> c == Bytes(old(h.m), old(q.Refs()))[0])
      ensures Left(old(h.m), old(q.Refs()), h.m, q.Refs(), if ok then 1 else 0, |Bytes(old(h.m), old(q.Refs()))|)
      ensures (h.m, q.Refs()) == DropFront(old(h.m), old(q.Refs()), if ok then 1 else 0)
    {
      hide *;
      HeldLength(h.m, q.Refs());
      var num := q.RefNum();
      if num == 0 {
        NoBytes(h.m, q.Refs());
        AllLeft(h.m, q.Refs(), 0);
        DropFrontDone(h.m, q.Refs());
        return false, 0;
      }
      TotalBound(q.Refs(), 0);
      RefFacts(h.m, q.Refs(), 0);
      FrontByte(h.m, q.Refs());
      DropFrontLeft(h.m, q.Refs(), 1, Total(q.Refs()));
      var r := q.RefAt(0);
      ok, c := true, h.m[r.block].data[r.offset];
      DropFrontOn(h.m, q.Refs(), 1);
      if r.length > 1 {
        FitsIs(h.m, Tail(r, 1));
        TailIs(r, 1);
        q.SetRef(0, Tail(r, 1));
      } else {
        DropFrontDone(Blocks.DecRef(h.m, r.block), q.Refs()[1..]);
        h.DecRef(r.block);
        var _ := q.PopFront();
      }
    }

    // ---- Sharing and copying bytes ----

    /** append of another buffer: every ref of it is pushed. */
    method Append(other: IOBuf, h: Heap)
      requires q.Valid() && other.q.Valid() && other.q != q && other.q.ring != q.ring
        && Held2(h.m, other.q.Refs(), q.Refs())
      modifies q, q.ring, h`m
      ensures q.Valid() && (q.ring == old(q.ring) || fresh(q.ring)) && other.q.Valid()
        && other.q.Refs() == old(other.q.Refs())
      ensures Shared(old(h.m), other.q.Refs(), old(q.Refs()), h.m, q.Refs(), Bytes(old(h.m), other.q.Refs()))
      ensures SharedFrom(old(h.m), other.q.Refs(), 0, Total(other.q.Refs()), old(q.Refs()), h.m, q.Refs())
    {
      hide *;
      var n := other.q.RefNum();
      ghost var end := SharingAllStart(h.m, other.q.Refs(), q.Refs());
      for i := 0 to n
        invariant q.Valid() && (q.ring == old(q.ring) || fresh(q.ring)) && q.ring != other.q.ring
        invariant SharingAll(h.m, other.q.Refs(), i, q.Refs(), end)
      {
        SharingAllOn(h.m, other.q.Refs(), i, q.Refs(), end);
        var r := other.q.RefAt(i);
        PushBackRef(r, h);
      }
      SharingAllDone(old(h.m), old(q.Refs()), Bytes(old(h.m), other.q.Refs()), h.m, other.q.Refs(), q.Refs(), end);
    }

    /** append of a buffer that is given up. */
    method AppendMovable(other: IOBuf, h: Heap)
      requires q.Valid() && other.q.Valid() && other.q != q && other.q.ring != q.ring
        && Held2(h.m, other.q.Refs(), q.Refs())
      modifies q, q.ring, other.q, other.q.ring, h`m
      ensures q.Valid() && other.q.Valid() && other.q.Refs() == []
      ensures q.ring in {old(q.ring), old(other.q.ring)} || fresh(q.ring)
      ensures other.q.ring in {old(q.ring), old(other.q.ring)} && q.ring != other.q.ring
      ensures var all := |Bytes(old(h.m), old(other.q.Refs()))|;
        Moved(old(h.m), old(other.q.Refs()), old(q.Refs()), h.m, [], q.Refs(), all)
      ensures var s, t := old(other.q.Refs()), old(q.Refs());
        if t == [] then h.m == old(h.m) && q.Refs() == s
        else (h.m, [], q.Refs()) == Carry(old(h.m), s, t, Total(s))
    {
      hide *;
      Held2Each(h.m, other.q.Refs(), q.Refs());
      HeldLength(h.m, other.q.Refs());
      var mine := q.RefNum();
      if mine == 0 {
        SwapMoved(h.m, other.q.Refs(), |Bytes(h.m, other.q.Refs())|);
        q.Swap(other.q);
      } else {
        CarryWhole(h.m, other.q.Refs(), q.Refs(), |Bytes(h.m, other.q.Refs())|);
        MoveAll(other, h);
      }
    }

    method MoveAll(other: IOBuf, h: Heap)
      requires q.Valid() && other.q.Valid() && other.q != q && other.q.ring != q.ring
        && Held2(h.m, other.q.Refs(), q.Refs())
      modifies q, q.ring, other.q, other.q.ring, h`m
      ensures q.Valid() && other.q.Valid() && other.q.Refs() == [] && (q.ring == old(q.ring) || fresh(q.ring))
      ensures other.q.ring == old(other.q.ring)
      ensures var end := Carry(old(h.m), old(other.q.Refs()), old(q.Refs()), Total(old(other.q.Refs())));
        h.m == end.0 && q.Refs() == end.2
    {
      hide *;
      var n := other.q.RefNum();
      DropAllStart(h.m, other.q.Refs());
      for i := 0 to n
        invariant q.Valid() && other.q.Valid() && other.q.Refs() == old(other.q.Refs())
          && other.q.ring == old(other.q.ring)
        invariant (q.ring == old(q.ring) || fresh(q.ring)) && q.ring != other.q.ring
        invariant Held2(h.m, other.q.Refs()[i..], q.Refs())
        invariant Carry(h.m, other.q.Refs()[i..], q.Refs(), Total(other.q.Refs()[i..]))
          == Carry(old(h.m), old(other.q.Refs()), old(q.Refs()), Total(old(other.q.Refs())))
      {
        MoveAllOn(h.m, other.q.Refs(), i, q.Refs());
        var r := other.q.RefAt(i);
        MoveBackRef(r, h);
      }
      MoveAllDone(h.m, other.q.Refs(), q.Refs());
      other.q.Reset();
    }

    /** operator=, with the ring reused if the two are of the same capacity, and the copy constructor. */
    method Assign(other: IOBuf, h: Heap)
      requires q.Valid() && other.q.Valid() && other.q != q && other.q.ring != q.ring
        && Held2(h.m, other.q.Refs(), q.Refs())
      modifies q, q.ring, h`m
      ensures q.Valid() && q.Refs() == other.q.Refs() && (q.ring == old(q.ring) || fresh(q.ring))
      ensures other.q.Valid() && other.q.Refs() == old(other.q.Refs()) && Held2(h.m, other.q.Refs(), q.Refs())
      ensures var s := other.q.Refs(); Effect(old(h.m), Claims(s) + Claims(old(q.Refs())), h.m, Claims(s) + Claims(s))
      ensures Eq(Bytes(h.m, q.Refs()), Bytes(old(h.m), other.q.Refs()))
      ensures h.m == CopyMem(old(h.m), other.q.Refs(), old(q.Refs()))
    {
      hide *;
      Held2Each(h.m, other.q.Refs(), q.Refs());
      ReleaseRefs(h);
      ghost var m1 := h.m;
      ClearedBeside(old(h.m), old(q.Refs()), other.q.Refs(), m1);
      CopyShared(m1, other.q.Refs());
      if q.SameRing(other.q) {
        q.Refill(other.q);
      } else {
        q.Reset();
        q.CopyFrom(other.q);
      }
      var n := q.RefNum();
      IncUptoStart(m1, q.Refs());
      for i := 0 to n
        invariant q.Valid() && other.q.Valid() && q.Refs() == other.q.Refs() == old(other.q.Refs())
        invariant q.ring == old(q.ring) || fresh(q.ring)
        invariant h.m == IncUpto(m1, q.Refs(), i)
      {
        IncUptoOn(m1, q.Refs(), i);
        var r := q.RefAt(i);
        h.IncRef(r.block);
      }
      CopyMemIs(old(h.m), q.Refs(), old(q.Refs()));
      AssignEffect(old(h.m), old(q.Refs()), other.q.Refs(), m1, h.m);
    }

    /** Finds the ref and the offset in it where byte `pos` is. */
    method Seek(pos: nat) returns (i: nat, offset: nat)
      requires q.Valid()
      ensures i <= |q.Refs()| && pos == TotalUpto(q.Refs(), i) + offset
      ensures i < |q.Refs()| ==> offset == 0 || offset < q.Refs()[i].length
    {
      hide RefQueue.Decode;
      var n := q.RefNum();
      i, offset := 0, pos;
      while offset != 0 && i < n
        invariant i <= n && pos == TotalUpto(q.Refs(), i) + offset
      {
        var r := q.RefAt(i);
        if offset < r.length {
          return;
        }
        offset := offset - r.length;
        i := i + 1;
      }
    }

    method AppendTo(buf: IOBuf, n: nat, pos: nat, h: Heap) returns (count: nat)
      requires q.Valid() && buf.q.Valid() && buf.q != q && buf.q.ring != q.ring && Held2(h.m, q.Refs(), buf.q.Refs())
      modifies buf.q, buf.q.ring, h`m
      ensures q.Valid() && q.Refs() == old(q.Refs()) && buf.q.Valid()
        && (buf.q.ring == old(buf.q.ring) || fresh(buf.q.ring))
      ensures Shared(old(h.m), q.Refs(), old(buf.q.Refs()), h.m, buf.q.Refs(),
        Substr(Bytes(old(h.m), q.Refs()), pos, n))
      ensures count == |Substr(Bytes(old(h.m), q.Refs()), pos, n)|
      ensures SharedFrom(old(h.m), q.Refs(), pos, n, old(buf.q.Refs()), h.m, buf.q.Refs())
    {
      hide *;
      var i: nat, offset: nat := Seek(pos);
      var num := q.RefNum();
      ghost var end := SharingStart(h.m, q.Refs(), i, offset, n, buf.q.Refs(), pos);
      var left: nat := n;
      while left != 0 && i < num
        invariant i <= num && left <= n && buf.q.Valid()
        invariant (buf.q.ring == old(buf.q.ring) || fresh(buf.q.ring)) && buf.q.ring != q.ring
        invariant Sharing(h.m, q.Refs(), i, offset, left, buf.q.Refs(), end)
      {
        SharingFacts(h.m, q.Refs(), i, offset, left, buf.q.Refs(), end);
        var r := q.RefAt(i);
        var k := if left < r.length - offset then left else r.length - offset;
        SharingOnPart(h.m, q.Refs(), i, offset, left, buf.q.Refs(), end, k);
        buf.PushBackRef(Piece(r, offset, k), h);
        i, offset, left := i + 1, 0, left - k;
      }
      SharingDone(old(h.m), old(buf.q.Refs()), Substr(Bytes(old(h.m), q.Refs()), pos, n),
        h.m, q.Refs(), i, offset, left, buf.q.Refs(), end);
      return n - left;
    }

    method CopyTo(n: nat, pos: nat, h: Heap) returns (d: seq<Byte>)
      requires q.Valid() && Sound(h.m, q.Refs())
      ensures Eq(d, Substr(Bytes(h.m, q.Refs()), pos, n))
    {
      hide *;
      var i: nat, offset: nat := Seek(pos);
      var num := q.RefNum();
      RefFacts(h.m, q.Refs(), i);
      ghost var s, all := q.Refs(), Substr(Bytes(h.m, q.Refs()), pos, n);
      CutAt(h.m, s, i, offset, n, pos);
      d := [];
      Nil(Cut(h.m, s, i, offset, n));
      EqIs([] + Cut(h.m, s, i, offset, n), Cut(h.m, s, i, offset, n), all);
      var left: nat := n;
      while left != 0 && i < num
        invariant i <= num && (i < num ==> offset < s[i].length) && Eq(d + Cut(h.m, s, i, offset, left), all)
      {
        var r := q.RefAt(i);
        var k := if left < r.length - offset then left else r.length - offset;
        CutOn(h.m, s, i, offset, left, d, k);
        RefFacts(h.m, s, i + 1);
        EqIs((d + Slice(h.m, Piece(r, offset, k))) + Cut(h.m, s, i + 1, 0, left - k),
          d + Cut(h.m, s, i, offset, left), all);
        d := d + Slice(h.m, Piece(r, offset, k));
        i, offset, left := i + 1, 0, left - k;
      }
      CutDone(h.m, s, i, offset, left, d);
      EqIs(d, d + Cut(h.m, s, i, offset, left), all);
    }

    // ---- Comparing and searching ----

    method Equals(other: IOBuf, h: Heap) returns (same: bool)
      requires q.Valid() && other.q.Valid() && Sound(h.m, q.Refs()) && Sound(h.m, other.q.Refs())
      ensures same == Eq(Bytes(h.m, q.Refs()), Bytes(h.m, other.q.Refs()))
    {
      hide *;
      ghost var s, t := q.Refs(), other.q.Refs();
      SoundLength(h.m, s);
      SoundLength(h.m, t);
      var size1 := q.Length();
      var size2 := other.q.Length();
      if size1 != size2 {
        LongerDiffers(Bytes(h.m, s), Bytes(h.m, t));
        return false;
      }
      if size1 == 0 {
        EmptySame(Bytes(h.m, s), Bytes(h.m, t));
        return true;
      }
      var nref1 := q.RefNum();
      var nref2 := other.q.RefNum();
      MatchingStart(h.m, s, t);
      var i: nat, j: nat, o1: nat, o2: nat := 0, 0, 0, 0;
      while true
        invariant i < nref1 && j < nref2 && Matching(h.m, s, t, i, o1, j, o2)
        decreases |Rest(h.m, s, i, o1)|
      {
        var r1 := q.RefAt(i);
        var r2 := other.q.RefAt(j);
        MatchingFacts(h.m, s, t, i, o1, j, o2);
        var len1, len2 := r1.length - o1, r2.length - o2;
        var c := if len1 < len2 then len1 else len2;
        MatchingOn(h.m, s, t, i, o1, j, o2, c);
        if Slice(h.m, Piece(r1, o1, c)) != Slice(h.m, Piece(r2, o2, c)) {
          return false;
        }
        MatchingEnds(h.m, s, t, i, o1, j, o2, c);
        if len1 == c {
          if i + 1 >= nref1 {
            return true;
          }
          i, o1 := i + 1, 0;
        } else {
          o1 := o1 + c;
        }
        if len2 == c {
          if j + 1 >= nref2 {
            return true;
          }
          j, o2 := j + 1, 0;
        } else {
          o2 := o2 + c;
        }
      }
    }
  }
}
