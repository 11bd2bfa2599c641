/**
 A thread with its heap, all its buffers and its portals. Its operations take the places of buffers in
 the list of items and call the operations of IOBuf and IOPortal; each call is a step of Runs.
 */
module Threads {
  import opened Chunks
  import opened Blocks
  import opened RefSteps
  import opened RefRuns
  import opened RefQueues
  import opened IOBufs
  import opened TlsBlocks
  import opened Growth
  import opened Appends
  import opened RefPlaces
  import opened Overwrites
  import opened Portals
  import opened World
  import opened ChainLinks
  import opened Privacy
  import opened Runs
  import opened Refinement

  /** Two buffers, which may be the same, and a portal, or 0 for the thread-local chain. */
  datatype Actors = Actors(i: nat, j: nat, k: nat)

  datatype Item = TheChain | ABuffer(buf: IOBuf) | APortal(portal: IOPortal)

  class Thread {
    const h: Heap
    var items: seq<Item>        // the thread-local chain, then buffers and portals; a portal follows its buffer
    ghost var w: State          // what the items hold
    ghost var repr: set<object>

    /** The objects behind an item. */
    ghost predicate Owns(x: Item)
      reads this, repr
    {
      match x
      case TheChain => true
      case ABuffer(b) => b.q in repr && b.q.ring in repr
      case APortal(p) => p in repr
    }

    ghost predicate Separate(x: Item, y: Item)
      reads this, repr
      requires Owns(x) && Owns(y)
    {
      match (x, y)
      case (ABuffer(b), ABuffer(c)) => b.q != c.q && b.q.ring != c.q.ring
      case (APortal(p), APortal(r)) => p != r
      case _ => true
    }

    ghost predicate Separated()
      reads this, repr
    {
      && this in repr && h in repr && 0 < h.cap < BLOCK_LIMIT
      && |items| > 0 && items[0] == TheChain && (forall k :: 0 < k < |items| ==> items[k] != TheChain)
      && (forall k :: 0 <= k < |items| ==> Owns(items[k]))
      && (forall j, k :: 0 <= j < k < |items| ==> Separate(items[j], items[k]))
      && (forall k :: 0 <= k < |items| && items[k].APortal? ==> k > 0 && items[k - 1] == ABuffer(items[k].portal.buf))
    }

    ghost predicate Shown(x: Item, y: Holder)
      reads this, repr
      requires h in repr && Owns(x)
    {
      match x
      case TheChain => y == Chain(h.tls)
      case ABuffer(b) => b.q.Valid() && y == Buffer(b.q.Refs())
      case APortal(p) => y == Chain(p.chain)
    }

    ghost predicate Shows()
      reads this, repr
      requires Separated()
    {
      && w.m == h.m && w.num == h.num && w.tls == 0 && |w.holders| == |items|
      && forall k :: 0 <= k < |items| ==> Shown(items[k], w.holders[k])
    }

    ghost predicate Valid()
      reads this, repr
    {
      Separated() && Shows() && Ok(w)
    }

    predicate HasBuffer(i: nat)
      reads this
    {
      i < |items| && items[i].ABuffer?
    }

    constructor (cap: nat)
      requires 0 < cap < BLOCK_LIMIT
      ensures Valid() && fresh(repr) && items == [TheChain] && Init(w) && h.cap == cap && h.fails == 0
    {
      hide Ok;
      h := new Heap(cap);
      items := [TheChain];
      w := State(map[], [Chain([])], 0, 0);
      new;
      repr := {this, h};
      InitOk(w);
    }

    // ---- Keeping the objects apart ----

    /** What every operation starts from. */
    lemma Begin()
      requires Valid()
      ensures this in repr && h in repr && 0 < h.cap < BLOCK_LIMIT && |items| > 0 && items[0] == TheChain
      ensures w.tls == 0 && w.m == h.m && w.num == h.num == |h.tls| && |w.holders| == |items|
        && w.holders[0] == Chain(h.tls)
      ensures Ok(w) && HasTls(w)
    {
      hide Counted, ChainsOk;
      assert Shown(items[0], w.holders[0]);
      OkTls(w);
    }

    /** What an operation on a buffer starts from. */
    lemma At(i: nat)
      requires Valid() && HasBuffer(i)
      ensures this in repr && h in repr && 0 < h.cap < BLOCK_LIMIT
      ensures var q := items[i].buf.q; q in repr && q.ring in repr && q.Valid() && w.holders[i] == Buffer(q.Refs())
      ensures IsBuffer(w, i) && i != w.tls == 0 && w.m == h.m && w.num == h.num == |h.tls|
        && w.holders[0] == Chain(h.tls)
      ensures Ok(w) && HasTls(w) && |w.holders| == |items| && items[0] == TheChain
    {
      hide Counted, ChainsOk, RefQueue.Decode;
      assert Owns(items[i]) && Shown(items[i], w.holders[i]) && Shown(items[0], w.holders[0]);
      OkTls(w);
    }

    /** Only the objects `os` and the heap have changed. */
    twostate predicate Only(os: set<object>)
      reads *
    {
      forall o :: o in old(repr) && o !in os && o != this && o != h ==> unchanged(o)
    }

    twostate predicate Unmoved(x: Item)
      reads if x.ABuffer? then {x.buf.q} else {}
    {
      x.ABuffer? ==> x.buf.q.ring == old(x.buf.q.ring)
    }

    function Queue(i: nat): RefQueue
      reads this
      requires HasBuffer(i)
    {
      items[i].buf.q
    }

    /** The thread-local chain, or that of a portal. */
    function ChainAt(k: nat): seq<BlockId>
      reads this, h, if k < |items| && items[k].APortal? then {items[k].portal} else {}
    {
      if k < |items| && items[k].APortal? then items[k].portal.chain else h.tls
    }

    function Changes(i: nat, j: nat, k: nat): set<object>
      reads this, if HasBuffer(i) then {items[i].buf.q} else {}, if HasBuffer(j) then {items[j].buf.q} else {}
      requires HasBuffer(i) && HasBuffer(j)
    {
      {Queue(i), Queue(i).ring, Queue(j), Queue(j).ring}
      + if k < |items| && items[k].APortal? then {items[k].portal} else {}
    }

    twostate predicate NotTouched(i: nat, j: nat, k: nat)
      reads *
    {
      || !old(Separated() && Shows()) || items != old(items) || !HasBuffer(i) || !HasBuffer(j)
      || k >= |items| || items[k].ABuffer? || !Queue(i).Valid() || !Queue(j).Valid()
      || (i != j && Queue(i).ring == Queue(j).ring)
      || !(Queue(i).ring in {old(Queue(i).ring), old(Queue(j).ring)} || Queue(i).ring !in old(repr))
      || !(Queue(j).ring in {old(Queue(i).ring), old(Queue(j).ring)} || Queue(j).ring !in old(repr))
      || repr != old(repr) + {Queue(i).ring, Queue(j).ring} || !Only(old(Changes(i, j, k)))
      || w.m != h.m || w.num != h.num || w.tls != 0 || |w.holders| != |items|
      || w.holders[0] != Chain(h.tls) || w.holders[i] != Buffer(Queue(i).Refs())
      || w.holders[j] != Buffer(Queue(j).Refs())
      || w.holders[k] != Chain(ChainAt(k))
      || exists l :: 0 < l < |items| && l != i && l != j && l != k && w.holders[l] != old(w).holders[l]
    }

    /** The buffers `i` and `j`, the thread-local chain and the chain `k` have changed. */
    twostate predicate Touched(i: nat, j: nat, k: nat)
      reads *
    {
      !NotTouched(i, j, k)
    }

    /** The items that do not act have kept their objects. */
    twostate lemma OthersStay(x: Actors)
      requires Touched(x.i, x.j, x.k)
      ensures this in repr && h in repr && forall l :: 0 <= l < |items| ==>
        Owns(items[l]) && Shown(items[l], w.holders[l])
      ensures forall l :: 0 <= l < |items| && l != x.i && l != x.j ==> Unmoved(items[l])
    {
      hide RefQueue.Decode;
      forall l | 0 < l < |items| && l != x.i && l != x.j && l != x.k
        ensures Owns(items[l]) && Shown(items[l], w.holders[l]) && Unmoved(items[l])
      {
        assert if x.i < l then old(Separate(items[x.i], items[l])) else old(Separate(items[l], items[x.i]));
        assert if x.j < l then old(Separate(items[x.j], items[l])) else old(Separate(items[l], items[x.j]));
        assert if x.k < l then old(Separate(items[x.k], items[l])) else old(Separate(items[l], items[x.k]));
        assert old(Shown(items[l], w.holders[l]));
      }
    }

    twostate lemma Settle(x: Actors)
      requires Touched(x.i, x.j, x.k)
      ensures Separated() && Shows()
    {
      hide RefQueue.Decode, Shown;
      OthersStay(x);
      forall a, b | 0 <= a < b < |items|
        ensures Separate(items[a], items[b])
      {
        assert old(Separate(items[a], items[b]));
      }
    }

    /** What an operation on a portal starts from. */
    lemma AtPortal(k: nat)
      requires Valid() && HasPortal(k)
      ensures k > 0 && HasBuffer(k - 1) && items[k].portal.buf == items[k - 1].buf
      ensures items[k].portal in repr && w.holders[k] == Chain(items[k].portal.chain) && IsPortal(w, k)
    {
      hide Counted, ChainsOk, RefQueue.Decode;
      assert Owns(items[k]) && Shown(items[k], w.holders[k]);
    }

    /** Two buffers have nothing in common. */
    lemma Other(i: nat, j: nat)
      requires Valid() && HasBuffer(i) && HasBuffer(j) && i != j
      ensures Queue(i) != Queue(j) && Queue(i).ring != Queue(j).ring
    {
      assert if i < j then Separate(items[i], items[j]) else Separate(items[j], items[i]);
    }

    /** The items from `n` on are new, with objects of their own. */
    twostate predicate Comers(n: nat)
      reads *
    {
      && n <= |items|
      && (forall l :: n <= l < |items| ==>
        items[l] != TheChain && h in repr && Owns(items[l]) && Apart(items[l], old(repr)))
      && (forall a, b :: n <= a < b < |items| ==> Separate(items[a], items[b]))
      && (forall l :: n <= l < |items| && items[l].APortal? ==> l > n && items[l - 1] == ABuffer(items[l].portal.buf))
    }

    ghost predicate Apart(x: Item, os: set<object>)
      reads if x.ABuffer? then {x.buf.q} else {}
    {
      match x
      case TheChain => true
      case ABuffer(b) => b.q !in os && b.q.ring !in os
      case APortal(p) => p !in os
    }

    twostate predicate NotJoined(n: nat)
      reads *
    {
      || !old(Separated() && Shows()) || n != |old(items)| || n > |items| || items[..n] != old(items)
      || !(old(repr) <= repr)
      || !Only({}) || !Comers(n) || w.m != h.m || w.tls != 0 || w.num != h.num || |w.holders| != |items|
      || w.holders[0] != Chain(h.tls) || (exists l :: 0 < l < n && w.holders[l] != old(w).holders[l])
      || (exists l :: n <= l < |items| && h in repr && Owns(items[l]) && !Shown(items[l], w.holders[l]))
    }

    /** Items have joined, and the thread-local chain may have changed. */
    twostate predicate Joined(n: nat)
      reads *
    {
      !NotJoined(n)
    }

    twostate lemma SettleNew(n: nat)
      requires Joined(n)
      ensures Separated() && Shows()
    {
      hide RefQueue.Decode;
      assert forall l :: 0 <= l < n ==> items[l] == old(items)[l];
      forall l | 0 <= l < n
        ensures Owns(items[l]) && Shown(items[l], w.holders[l]) && Unmoved(items[l])
      {
        assert old(Shown(items[l], w.holders[l]));
      }
      forall a, b | 0 <= a < b < |items|
        ensures Separate(items[a], items[b])
      {
        if b < n {
          assert old(Separate(items[a], items[b]));
        }
      }
    }

    // ---- The operations ----

    method NewBuffer() returns (i: nat)
      requires Valid()
      modifies repr
      ensures Valid() && fresh(repr - old(repr))
      ensures h.fails == old(h.fails)
      ensures i == |old(items)| && |items| == i + 1 && items[..i] == old(items) && HasBuffer(i)
        && Does(old(w), Op.NewBuffer, w)
    {
      hide Separated, Shows, Counted, ChainsOk, RefQueue.Decode;
      Begin();
      i := |items|;
      var b := new IOBuf();
      items := items + [ABuffer(b)];
      repr := repr + {b.q, b.q.ring};
      w := w.(holders := w.holders + [Buffer([])]);
      SettleNew(i);
      DoesKeeps(old(w), Op.NewBuffer, w);
    }

    /** An IOPortal is a buffer with a chain of its own. */
    method NewPortal() returns (k: nat, ghost mid: State)
      requires Valid()
      modifies repr
      ensures Valid() && fresh(repr - old(repr))
      ensures h.fails == old(h.fails)
      ensures k == |old(items)| + 1 && |items| == k + 1 && items[..k - 1] == old(items) && HasBuffer(k - 1)
        && HasPortal(k)
      ensures Does(old(w), Op.NewBuffer, mid) && Does(mid, Op.NewPortal, w)
    {
      hide Separated, Shows, Counted, ChainsOk, RefQueue.Decode;
      Begin();
      k := |items| + 1;
      var p := new IOPortal();
      items := items + [ABuffer(p.buf), APortal(p)];
      repr := repr + {p, p.buf.q, p.buf.q.ring};
      mid := w.(holders := w.holders + [Buffer([])]);
      w := mid.(holders := mid.holders + [Chain([])]);
      SettleNew(k - 1);
      DoesKeeps(old(w), Op.NewBuffer, mid);
      DoesKeeps(mid, Op.NewPortal, w);
    }

    /** IOBuf::size */
    method Length(i: nat) returns (n: nat)
      requires Valid() && HasBuffer(i)
      ensures i < |w.holders| && n == |Seen(w, i)|
    {
      hide Separated, Shows, Counted, ChainsOk, RefQueue.Decode, Total, Bytes, Held;
      At(i);
      HeldAt(w, i);
      n := Queue(i).Length();
    }

    method PopFront(i: nat, n: nat) returns (popped: nat)
      requires Valid() && HasBuffer(i)
      modifies repr
      ensures Valid() && fresh(repr - old(repr)) && items == old(items)
      ensures h.fails == old(h.fails)
      ensures popped == Min(n, |Seen(old(w), i)|)
      ensures Does(old(w), if n < |Seen(old(w), i)| then Op.PopFront(i, n) else Op.Clear(i), w)
    {
      hide Separated, Shows, Counted, ChainsOk, RefQueue.Decode, Held, Left, DropFront, DropBack, DropAll, Bytes;
      At(i);
      CanAct(w, i);
      popped := items[i].buf.PopFront(n, h);
      w := After(w, i, h.m, Queue(i).Refs());
      repr := repr + {Queue(i).ring};
      Settle(Actors(i, i, 0));
      HeldAt(old(w), i);
      DoesKeeps(old(w), if n < |Seen(old(w), i)| then Op.PopFront(i, n) else Op.Clear(i), w);
    }

    method PopBack(i: nat, n: nat) returns (popped: nat)
      requires Valid() && HasBuffer(i)
      modifies repr
      ensures Valid() && fresh(repr - old(repr)) && items == old(items)
      ensures h.fails == old(h.fails)
      ensures popped == Min(n, |Seen(old(w), i)|)
      ensures Does(old(w), if n < |Seen(old(w), i)| then Op.PopBack(i, n) else Op.Clear(i), w)
    {
      hide Separated, Shows, Counted, ChainsOk, RefQueue.Decode, Held, Left, DropFront, DropBack, DropAll, Bytes;
      At(i);
      CanAct(w, i);
      popped := items[i].buf.PopBack(n, h);
      w := After(w, i, h.m, Queue(i).Refs());
      repr := repr + {Queue(i).ring};
      Settle(Actors(i, i, 0));
      HeldAt(old(w), i);
      DoesKeeps(old(w), if n < |Seen(old(w), i)| then Op.PopBack(i, n) else Op.Clear(i), w);
    }

    method Clear(i: nat)
      requires Valid() && HasBuffer(i)
      modifies repr
      ensures Valid() && fresh(repr - old(repr)) && items == old(items)
      ensures h.fails == old(h.fails)
      ensures Does(old(w), Op.Clear(i), w)
    {
      hide Separated, Shows, Counted, ChainsOk, RefQueue.Decode, Held, Left, DropFront, DropBack, DropAll, Bytes,
        Effect;
      At(i);
      CanAct(w, i);
      items[i].buf.Clear(h);
      w := After(w, i, h.m, Queue(i).Refs());
      repr := repr + {Queue(i).ring};
      Settle(Actors(i, i, 0));
      DoesKeeps(old(w), Op.Clear(i), w);
    }

    method Cut1(i: nat) returns (ok: bool, c: Byte)
      requires Valid() && HasBuffer(i)
      modifies repr
      ensures Valid() && fresh(repr - old(repr)) && items == old(items)
      ensures h.fails == old(h.fails)
      ensures ok == (|Seen(old(w), i)| > 0) && (ok ==> c == Seen(old(w), i)[0])
      ensures Does(old(w), Op.PopFront(i, if ok then 1 else 0), w)
    {
      hide Separated, Shows, Counted, ChainsOk, RefQueue.Decode, Held, Left, DropFront, DropBack, DropAll, Bytes;
      At(i);
      CanAct(w, i);
      ok, c := items[i].buf.Cut1(h);
      w := After(w, i, h.m, Queue(i).Refs());
      repr := repr + {Queue(i).ring};
      Settle(Actors(i, i, 0));
      HeldAt(old(w), i);
      DoesKeeps(old(w), Op.PopFront(i, if ok then 1 else 0), w);
    }

    method CutnBytes(i: nat, n: nat) returns (out: seq<Byte>)
      requires Valid() && HasBuffer(i)
      modifies repr
      ensures Valid() && fresh(repr - old(repr)) && items == old(items)
      ensures h.fails == old(h.fails)
      ensures out == Chunks.Take(Seen(old(w), i), n) && Does(old(w), Op.PopFront(i, |out|), w)
    {
      hide Separated, Shows, Counted, ChainsOk, RefQueue.Decode, Held, Left, DropFront, DropBack, DropAll, Bytes,
        Chunks.Take;
      At(i);
      CanAct(w, i);
      out := items[i].buf.CutnBytes(n, h);
      w := After(w, i, h.m, Queue(i).Refs());
      repr := repr + {Queue(i).ring};
      Settle(Actors(i, i, 0));
      HeldAt(old(w), i);
      TakeLength(Seen(old(w), i), n);
      DoesKeeps(old(w), Op.PopFront(i, |out|), w);
    }

    method PushBackByte(i: nat, x: Byte) returns (rc: int, ghost rs: seq<Round>)
      requires Valid() && HasBuffer(i)
      modifies repr
      ensures Valid() && fresh(repr - old(repr)) && items == old(items)
      ensures h.fails == old(h.fails) + (if rc == -1 then 1 else 0) && (rc == -1 ==> h.tls == [])
      ensures rc in {0, -1} && Poured(rs, |rs|) == (if rc == 0 then [x] else [])
        && Does(old(w), Op.Pour(i, rs, rc == -1), w)
    {
      hide Separated, Shows, Counted, ChainsOk, RefQueue.Decode, ReadyAt, Grown, Poured;
      At(i);
      SpotReady(w, i);
      rc, rs := Appends.PushBackByte(items[i].buf, x, h);
      w := AfterAppend(w, i, h.m, Queue(i).Refs(), h.tls);
      repr := repr + {Queue(i).ring};
      Settle(Actors(i, i, 0));
      DoesKeeps(old(w), Op.Pour(i, rs, rc == -1), w);
    }

    method AppendBytes(i: nat, data: seq<Byte>) returns (rc: int, ghost done: nat, ghost rs: seq<Round>)
      requires Valid() && HasBuffer(i)
      modifies repr
      ensures Valid() && fresh(repr - old(repr)) && items == old(items)
      ensures h.fails == old(h.fails) + (if rc == -1 then 1 else 0) && (rc == -1 ==> h.tls == [])
      ensures done <= |data| && rc == (if done == |data| then 0 else -1) && Poured(rs, |rs|) == data[..done]
      ensures Does(old(w), Op.Pour(i, rs, rc == -1), w) && Standard(rs, h.cap)
    {
      hide Separated, Shows, Counted, ChainsOk, RefQueue.Decode, ReadyAt, Grown, Poured, Standard;
      At(i);
      SpotReady(w, i);
      rc, done, rs := Appends.AppendBytes(items[i].buf, data, h);
      w := AfterAppend(w, i, h.m, Queue(i).Refs(), h.tls);
      repr := repr + {Queue(i).ring};
      Settle(Actors(i, i, 0));
      DoesKeeps(old(w), Op.Pour(i, rs, rc == -1), w);
    }

    method AppendV(i: nat, vec: seq<seq<Byte>>) returns (rc: int, ghost done: seq<Byte>, ghost rs: seq<Round>)
      requires Valid() && HasBuffer(i) && (vec != [] ==> Size(vec, |vec|) > 0)
      modifies repr
      ensures Valid() && fresh(repr - old(repr)) && items == old(items)
      ensures h.fails == old(h.fails) + (if rc == -1 then 1 else 0) && (rc == -1 ==> h.tls == [])
      ensures rc in {0, -1} && done <= Flat(vec, |vec|) && (rc == 0 ==> done == Flat(vec, |vec|))
      ensures Poured(rs, |rs|) == done && Does(old(w), Op.Pour(i, rs, rc == -1), w)
    {
      hide Separated, Shows, Counted, ChainsOk, RefQueue.Decode, ReadyAt, Grown, Poured, Flat, Size;
      At(i);
      SpotReady(w, i);
      rc, done, rs := Appends.AppendV(items[i].buf, vec, h);
      w := AfterAppend(w, i, h.m, Queue(i).Refs(), h.tls);
      repr := repr + {Queue(i).ring};
      Settle(Actors(i, i, 0));
      DoesKeeps(old(w), Op.Pour(i, rs, rc == -1), w);
    }

    method Resize(i: nat, n: nat, x: Byte) returns (rc: int, ghost done: nat, ghost op: Op)
      requires Valid() && HasBuffer(i)
      modifies repr
      ensures Valid() && fresh(repr - old(repr)) && items == old(items) && Does(old(w), op, w)
      ensures h.fails == old(h.fails) + (if rc == -1 then 1 else 0) && (rc == -1 ==> h.tls == [])
      ensures var len := |Seen(old(w), i)|;
        if n < len then rc == 0 && op == if n > 0 then Op.PopBack(i, len - n) else Op.Clear(i)
        else && op.Pour? && op.i == i && op.dry == (rc == -1) && Poured(op.rs, |op.rs|) == Rep(x, done)
             && done <= n - len && rc == if done == n - len then 0 else -1
    {
      hide Separated, Shows, Counted, ChainsOk, RefQueue.Decode, ReadyAt, Grown, Poured, Rep, Bytes, DropBack, DropAll;
      At(i);
      SpotReady(w, i);
      ghost var rs;
      rc, done, rs := Appends.Resize(items[i].buf, n, x, h);
      w := AfterAppend(w, i, h.m, Queue(i).Refs(), h.tls);
      repr := repr + {Queue(i).ring};
      Settle(Actors(i, i, 0));
      HeldAt(old(w), i);
      ghost var len := |Seen(old(w), i)|;
      op := if n >= len then Op.Pour(i, rs, rc == -1) else if n > 0 then Op.PopBack(i, len - n) else Op.Clear(i);
      if n < len {
        SameChain(old(w), i, w);
      }
      DoesKeeps(old(w), op, w);
    }

    method Reserve(i: nat, count: nat) returns (area: Area, ok: bool, ghost rs: seq<Round>)
      requires Valid() && HasBuffer(i)
      modifies repr
      ensures Valid() && fresh(repr - old(repr)) && items == old(items)
      ensures h.fails == old(h.fails) + (if ok then 0 else 1) && (!ok ==> h.tls == [])
      ensures |Poured(rs, |rs|)| <= count && ok == (|Poured(rs, |rs|)| == count) && Does(old(w), Op.Pour(i, rs, !ok), w)
      ensures IsBuffer(w, i) && AreaAt(area, RefsAt(w, i), |Seen(old(w), i)|, count) && (!ok ==> area == Invalid)
      ensures IsBuffer(old(w), i) && HasTls(old(w)) && (ok ==> (area.Area? <==> HasArea(SpotAt(old(w), i), count)))
      ensures Unwritten(SpotAt(old(w), i), rs, |rs|) && Standard(rs, h.cap)
    {
      hide Separated, Shows, Counted, ChainsOk, RefQueue.Decode, ReadyAt, Grown, Poured, HasArea, AreaAt, Unwritten,
        Standard;
      At(i);
      SpotReady(w, i);
      HeldAt(w, i);
      ghost var x;
      area, ok, x, rs := Appends.Reserve(items[i].buf, count, h);
      w := AfterAppend(w, i, h.m, Queue(i).Refs(), h.tls);
      repr := repr + {Queue(i).ring};
      Settle(Actors(i, i, 0));
      DoesKeeps(old(w), Op.Pour(i, rs, !ok), w);
    }

    method AppendUserData(i: nat, data: seq<Byte>) returns (rc: int, ghost b: BlockId)
      requires Valid() && HasBuffer(i) && |data| < BLOCK_LIMIT
      modifies repr
      ensures Valid() && fresh(repr - old(repr)) && items == old(items)
      ensures h.fails == old(h.fails) + (if rc == -1 then 1 else 0)
      ensures rc in {0, -1} && Does(old(w), Op.AdoptData(i, b, if rc == 0 then data else []), w)
    {
      hide Separated, Shows, Counted, ChainsOk, RefQueue.Decode, ReadyAt, Adopted;
      At(i);
      SpotReady(w, i);
      rc, b := Appends.AppendUserData(items[i].buf, data, h);
      w := AfterAppend(w, i, h.m, Queue(i).Refs(), h.tls);
      repr := repr + {Queue(i).ring};
      Settle(Actors(i, i, 0));
      DoesKeeps(old(w), Op.AdoptData(i, b, if rc == 0 then data else []), w);
    }

    method UnsafeAssign(i: nat, area: Area, data: seq<Byte>) returns (rc: int)
      requires Valid() && HasBuffer(i) && (area.Area? ==> |data| == area.size)
      requires area.Area? && IsBuffer(w, i) && area.index < |RefsAt(w, i)| ==>
        area.offset <= RefsAt(w, i)[area.index].length
      modifies repr
      ensures Valid() && fresh(repr - old(repr)) && items == old(items) && IsBuffer(old(w), i)
      ensures h.fails == old(h.fails)
      ensures area == Invalid ==> rc == -1 && w == old(w)
      ensures area.Area? && area.index < |RefsAt(old(w), i)| ==>
        var at := StartOf(area, RefsAt(old(w), i));
        && rc == (if at + |data| <= |PlacesAt(old(w), i)| then 0 else -1)
        && (rc == 0 ==> w == old(w).(m := Assigned(old(w), i, at, data)))
        && (rc == 0 && Private(old(w), i, at, |data|) ==> Does(old(w), Op.Rewrite(i, at, data), w))
    {
      hide Separated, Shows, Counted, ChainsOk, RefQueue.Decode, Places, Overwrite, SameShape, Private, Total,
        TotalUpto, Sound;
      At(i);
      BufferSound(w, i);
      rc := Overwrites.UnsafeAssign(items[i].buf, area, data, h);
      w := w.(m := h.m);
      repr := repr + {Queue(i).ring};
      Settle(Actors(i, i, 0));
      AssignIs(old(w), i, area, data, h.m);
      ShapeOk(old(w), h.m);
    }

    method Cutn(i: nat, j: nat, n: nat) returns (moved: nat)
      requires Valid() && HasBuffer(i) && HasBuffer(j) && i != j
      modifies repr
      ensures Valid() && fresh(repr - old(repr)) && items == old(items)
      ensures h.fails == old(h.fails)
      ensures moved == Min(n, |Seen(old(w), i)|) && Does(old(w), Op.Move(i, j, moved), w)
    {
      hide Does, Separated, Shows, Counted, ChainsOk, RefQueue.Decode, Held2, Moved, Carry, Bytes, Held, DropAll;
      At(i);
      At(j);
      Other(i, j);
      CanActTogether(w, i, j);
      moved := items[i].buf.Cutn(items[j].buf, n, h);
      w := After2(w, i, j, h.m, Queue(i).Refs(), Queue(j).Refs());
      repr := repr + {Queue(i).ring, Queue(j).ring};
      Settle(Actors(i, j, 0));
      HeldAt(old(w), i);
      AsMove(old(w), i, j, moved, w);
    }

    method AppendMovable(j: nat, i: nat)
      requires Valid() && HasBuffer(i) && HasBuffer(j) && i != j
      modifies repr
      ensures Valid() && fresh(repr - old(repr)) && items == old(items)
      ensures h.fails == old(h.fails)
      ensures IsBuffer(old(w), i) && IsBuffer(old(w), j)
      ensures Does(old(w), if RefsAt(old(w), j) == [] then Op.Take(i, j)
        else Op.Move(i, j, Total(RefsAt(old(w), i))), w)
    {
      hide Does, Separated, Shows, Counted, ChainsOk, RefQueue.Decode, Held2, Moved, Carry, Bytes, Total;
      At(i);
      At(j);
      Other(i, j);
      CanActTogether(w, i, j);
      items[j].buf.AppendMovable(items[i].buf, h);
      w := After2(w, i, j, h.m, Queue(i).Refs(), Queue(j).Refs());
      repr := repr + {Queue(i).ring, Queue(j).ring};
      Settle(Actors(i, j, 0));
      if RefsAt(old(w), j) == [] {
        AsTake(old(w), i, j, w);
      } else {
        AsMove(old(w), i, j, Total(RefsAt(old(w), i)), w);
      }
    }

    method Append(j: nat, i: nat)
      requires Valid() && HasBuffer(i) && HasBuffer(j) && i != j
      modifies repr
      ensures Valid() && fresh(repr - old(repr)) && items == old(items)
      ensures h.fails == old(h.fails)
      ensures Does(old(w), Op.ShareTo(i, j, 0, |Seen(old(w), i)|), w)
    {
      hide Does, Separated, Shows, Counted, ChainsOk, RefQueue.Decode, Held2, Shared, SharedFrom, Bytes, Effect,
        Claims, Substr, CopyMem;
      At(i);
      At(j);
      Other(i, j);
      CanActTogether(w, i, j);
      HeldAt(w, i);
      items[j].buf.Append(items[i].buf, h);
      w := After2(w, i, j, h.m, Queue(i).Refs(), Queue(j).Refs());
      repr := repr + {Queue(i).ring, Queue(j).ring};
      Settle(Actors(i, j, 0));
      AsShare(old(w), i, j, 0, |Seen(old(w), i)|, w);
    }

    method AppendTo(i: nat, j: nat, n: nat, pos: nat) returns (count: nat)
      requires Valid() && HasBuffer(i) && HasBuffer(j) && i != j
      modifies repr
      ensures Valid() && fresh(repr - old(repr)) && items == old(items)
      ensures h.fails == old(h.fails)
      ensures count == |Substr(Seen(old(w), i), pos, n)| && Does(old(w), Op.ShareTo(i, j, pos, n), w)
    {
      hide Does, Separated, Shows, Counted, ChainsOk, RefQueue.Decode, Held2, Shared, SharedFrom, Bytes, Effect,
        Claims, Substr, CopyMem;
      At(i);
      At(j);
      Other(i, j);
      CanActTogether(w, i, j);
      count := items[i].buf.AppendTo(items[j].buf, n, pos, h);
      w := After2(w, i, j, h.m, Queue(i).Refs(), Queue(j).Refs());
      repr := repr + {Queue(i).ring, Queue(j).ring};
      Settle(Actors(i, j, 0));
      AsShare(old(w), i, j, pos, n, w);
    }

    method Assign(j: nat, i: nat)
      requires Valid() && HasBuffer(i) && HasBuffer(j) && i != j
      modifies repr
      ensures Valid() && fresh(repr - old(repr)) && items == old(items)
      ensures h.fails == old(h.fails)
      ensures Does(old(w), Op.Copy(i, j), w)
    {
      hide Does, Separated, Shows, Counted, ChainsOk, RefQueue.Decode, Held2, Shared, SharedFrom, Bytes, Effect,
        Claims, Substr, CopyMem;
      At(i);
      At(j);
      Other(i, j);
      CanActTogether(w, i, j);
      items[j].buf.Assign(items[i].buf, h);
      w := After2(w, i, j, h.m, Queue(i).Refs(), Queue(j).Refs());
      repr := repr + {Queue(i).ring, Queue(j).ring};
      Settle(Actors(i, j, 0));
      AsCopy(old(w), i, j, w);
    }

    predicate HasPortal(k: nat)
      reads this
    {
      k < |items| && items[k].APortal?
    }

    method AppendFromReader(k: nat, max: nat, reader: Reader) returns (nr: int, ghost x: seq<Byte>)
      requires Valid() && HasPortal(k) && reader !in repr
      modifies repr, reader
      ensures Valid() && fresh(repr - old(repr)) && items == old(items)
      ensures h.fails == old(h.fails) || (h.fails == old(h.fails) + 1 && nr == -1)
      ensures if h.fails == old(h.fails) then reader.Answers(nr, x, max) else unchanged(reader) && x == []
      ensures |x| == (if nr > 0 then nr else 0) <= max && k > 0 && Does(old(w), Op.Read(k - 1, k, x), w)
    {
      hide Does, Separated, Shows, Counted, ChainsOk, RefQueue.Decode, Fit, Appended, Spares;
      AtPortal(k);
      At(k - 1);
      CanRead(w, k - 1, k);
      nr, x := items[k].portal.AppendFromReader(h, max, reader);
      w := AfterRead(w, k - 1, k, h.m, Queue(k - 1).Refs(), h.tls, items[k].portal.chain);
      repr := repr + {Queue(k - 1).ring};
      Settle(Actors(k - 1, k - 1, k));
      AsRead(old(w), k - 1, k, x, w);
    }

    method ReturnCachedBlocks(k: nat)
      requires Valid() && HasPortal(k)
      modifies repr
      ensures Valid() && fresh(repr - old(repr)) && items == old(items)
      ensures h.fails == old(h.fails)
      ensures Does(old(w), Op.Return(k), w)
    {
      hide Does, Separated, Shows, Counted, ChainsOk, RefQueue.Decode, TlsOk, TlsStep, Returned;
      AtPortal(k);
      At(k - 1);
      LinksOk(w, k);
      items[k].portal.ReturnCachedBlocks(h);
      w := AfterLend(w, k, h.m, h.tls, []);
      repr := repr + {Queue(k - 1).ring};
      Settle(Actors(k - 1, k - 1, k));
      AsReturn(old(w), k, w);
    }

    method RemoveTlsBlockChain()
      requires Valid()
      modifies repr
      ensures Valid() && fresh(repr - old(repr)) && items == old(items)
      ensures h.fails == old(h.fails)
      ensures Does(old(w), Op.Release, w)
    {
      hide Does, Separated, Shows, Counted, ChainsOk, RefQueue.Decode, TlsOk, TlsStep, DropLinks;
      Begin();
      TlsAlone(w);
      TlsBlocks.RemoveTlsBlockChain(h);
      w := w.(m := h.m, holders := w.holders[w.tls := Chain([])], num := 0);
      SettleNew(|items|);
      AsRelease(old(w), w);
    }
  }

  lemma AsMove(w: State, i: nat, j: nat, n: nat, v: State)
    requires Ok(w) && MoveDoes(w, i, j, n, v)
    ensures Does(w, Op.Move(i, j, n), v) && Ok(v)
  {
    DoesKeeps(w, Op.Move(i, j, n), v);
  }

  lemma AsTake(w: State, i: nat, j: nat, v: State)
    requires Ok(w) && TakeDoes(w, i, j, v)
    ensures Does(w, Op.Take(i, j), v) && Ok(v)
  {
    DoesKeeps(w, Op.Take(i, j), v);
  }

  lemma AsShare(w: State, i: nat, j: nat, p: nat, n: nat, v: State)
    requires Ok(w) && ShareDoes(w, i, j, p, n, v)
    ensures Does(w, Op.ShareTo(i, j, p, n), v) && Ok(v)
  {
    DoesKeeps(w, Op.ShareTo(i, j, p, n), v);
  }

  lemma AsCopy(w: State, i: nat, j: nat, v: State)
    requires Ok(w) && CopyDoes(w, i, j, v)
    ensures Does(w, Op.Copy(i, j), v) && Ok(v)
  {
    DoesKeeps(w, Op.Copy(i, j), v);
  }

  lemma AsRead(w: State, i: nat, k: nat, x: seq<Byte>, v: State)
    requires Ok(w) && ReadDoes(w, i, k, x, v)
    ensures Does(w, Op.Read(i, k, x), v) && Ok(v)
  {
    DoesKeeps(w, Op.Read(i, k, x), v);
  }

  lemma AsReturn(w: State, k: nat, v: State)
    requires Ok(w) && ReturnDoes(w, k, v)
    ensures Does(w, Op.Return(k), v) && Ok(v)
  {
    DoesKeeps(w, Op.Return(k), v);
  }

  lemma AsRelease(w: State, v: State)
    requires Ok(w) && ReleaseDoes(w, v)
    ensures Does(w, Op.Release, v) && Ok(v)
  {
    DoesKeeps(w, Op.Release, v);
  }

  lemma OkTls(w: State)
    requires Ok(w)
    ensures HasTls(w) && w.num == |Tls(w)|
  {
  }

  lemma SameChain(w: State, i: nat, v: State)
    requires IsBuffer(w, i) && IsBuffer(v, i) && HasTls(w) && v == AfterAppend(w, i, v.m, RefsAt(v, i), Tls(w))
      && w.num == |Tls(w)|
    ensures v == After(w, i, v.m, RefsAt(v, i))
  {
    assert v.holders == After(w, i, v.m, RefsAt(v, i)).holders;
  }

  lemma TlsAlone(w: State)
    requires Ok(w) && HasTls(w)
    ensures TlsOk(w.m, multiset(Tls(w)))
  {
    Own1(w.holders, w.tls);
    CoversOwn(w, [w.tls]);
    EffectRefl(w.m, multiset(Tls(w)));
  }

  lemma TakeLength(s: seq<Byte>, n: nat)
    ensures |Chunks.Take(s, n)| <= |s|
  {
  }

  /** What unsafe_assign does, in terms of the places of the buffer. */
  lemma AssignIs(w: State, i: nat, area: Area, x: seq<Byte>, m: Mem)
    requires IsBuffer(w, i) && (area.Area? ==> |x| == area.size)
    requires area == Invalid ==> m == w.m
    requires area.Area? ==> var ps := PlacesFrom(RefsAt(w, i), StartOf(area, RefsAt(w, i)));
      m == Overwrite(w.m, ps, x, Min(|x|, |ps|))
    requires area.Area? && area.index < |RefsAt(w, i)| ==> area.offset <= RefsAt(w, i)[area.index].length
    ensures SameShape(w.m, m)
    ensures area.Area? && area.index < |RefsAt(w, i)| ==>
      var at, ps := StartOf(area, RefsAt(w, i)), PlacesFrom(RefsAt(w, i), StartOf(area, RefsAt(w, i)));
      && (|x| <= |ps| <==> at + |x| <= |PlacesAt(w, i)|)
      && (at + |x| <= |PlacesAt(w, i)| ==> m == Assigned(w, i, at, x))
  {
    hide Places, Overwrite, SameShape, TotalUpto, Total;
    var s := RefsAt(w, i);
    if area == Invalid {
      ShapeSelf(w.m);
    } else {
      var at := StartOf(area, s);
      var ps := PlacesFrom(s, at);
      StartIs(area, s, w.m, x);
      PlacesLengthIs(s);
      OverwriteShape(w.m, ps, x, Min(|x|, |ps|));
      if at + |x| <= |PlacesAt(w, i)| {
        OverwriteSame(w.m, ps, PlacesAt(w, i)[at..at + |x|], x, |x|);
      }
    }
  }

  lemma PlacesLengthIs(s: seq<BlockRef>)
    ensures |Places(s)| == Total(s)
  {
    PlacesLength(s, |s|);
  }
}
