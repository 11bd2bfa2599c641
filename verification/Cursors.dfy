/** A cutter over a buffer of a thread: what it cuts goes from the buffer, and nobody else sees a change. */
module Cursors {
  import opened Chunks
  import opened Blocks
  import opened RefSteps
  import opened RefRuns
  import opened RefQueues
  import opened Recounts
  import CutterSteps
  import opened Cutters
  import opened World
  import opened ChainLinks
  import opened Privacy
  import opened Runs
  import opened Threads

  ghost predicate Disturbs(w: State, who: set<nat>, v: State) {
    || |v.holders| < |w.holders|
    || exists k :: 0 <= k < |w.holders| && k !in who && (v.holders[k] != w.holders[k] || Seen(v, k) != Seen(w, k))
  }

  /** All holders but `who` have what they had and see the same; there may be more of them. */
  ghost predicate Keeps(w: State, who: set<nat>, v: State) {
    !Disturbs(w, who, v)
  }

  lemma KeepsTrans(w: State, a: set<nat>, u: State, b: set<nat>, v: State, c: set<nat>)
    requires Keeps(w, a, u) && Keeps(u, b, v) && a <= c && forall k :: k in b && k < |w.holders| ==> k in c
    ensures Keeps(w, c, v)
  {
  }

  lemma KeepsSelf(w: State, who: set<nat>)
    ensures Keeps(w, who, w)
  {
  }

  lemma BuffersAct(w: State, who: seq<nat>, v: State, os: set<nat>)
    requires (forall l :: 0 <= l < |who| ==> who[l] in os) && Ok(w) && Acts(w, who, v) && Recounted(w.m, v.m)
    requires forall l :: 0 <= l < |who| && who[l] < |w.holders| && who[l] < |v.holders| ==>
      w.holders[who[l]].Buffer? && v.holders[who[l]].Buffer?
    ensures Ok(v) && Keeps(w, os, v)
  {
    hide Counted, ChainsOk, Acts, Recounted, Around, Bytes;
    ActsIs(w, who, v);
    ActsKeeps(w, who, v);
    BuffersAround(w, who, v);
    KeepsChains(w, who, v);
    forall k | 0 <= k < |w.holders| && k !in os
      ensures v.holders[k] == w.holders[k] && Seen(v, k) == Seen(w, k)
    {
      BystanderKept(w, who, v, k);
    }
  }

  lemma SteppedParts(m0: Mem, s0: seq<BlockRef>, u0: nat, m: Mem, s: seq<BlockRef>, u: nat, k: nat)
    requires CutterSteps.Stepped(m0, s0, u0, m, s, u, k)
    ensures RefsOk(m, s) && Effect(m0, Claims(s0), m, Claims(s)) && Recounted(m0, m)
    ensures var v := CutterSteps.View(m0, s0, u0); k <= |v| && CutterSteps.View(m, s, u) == v[k..]
  {
  }

  /** A cutter goes on over a buffer of a whole. */
  lemma StepKeeps(w: State, i: nat, u0: nat, m: Mem, s: seq<BlockRef>, u: nat, k: nat)
    requires Ok(w) && IsBuffer(w, i) && CutterSteps.Stepped(w.m, RefsAt(w, i), u0, m, s, u, k)
    ensures Ok(After(w, i, m, s)) && Keeps(w, {i}, After(w, i, m, s))
    ensures var v := CutterSteps.View(w.m, RefsAt(w, i), u0); k <= |v| && CutterSteps.View(m, s, u) == v[k..]
  {
    hide Counted, ChainsOk, CutterSteps.Stepped, CutterSteps.View, Effect, Recounted, RefsOk, Claims, Keeps, Acts;
    SteppedParts(w.m, RefsAt(w, i), u0, m, s, u, k);
    var v := After(w, i, m, s);
    OneActs(w, i, m, s);
    BuffersAct(w, [i], v, {i});
  }

  lemma OneActs(w: State, i: nat, m: Mem, s: seq<BlockRef>)
    requires Counted(w) && IsBuffer(w, i) && RefsOk(m, s) && Effect(w.m, Claims(RefsAt(w, i)), m, Claims(s))
    ensures Acts(w, [i], After(w, i, m, s))
  {
    hide Effect, RefsOk, Claims, Counted;
    TlsStays2(w, i, i);
    Own1(w.holders, i);
    Own1(After(w, i, m, s).holders, i);
  }

  lemma FerriedParts(m0: Mem, s0: seq<BlockRef>, u0: nat, t0: seq<BlockRef>,
    m: Mem, s: seq<BlockRef>, u: nat, t: seq<BlockRef>, k: nat)
    requires CutterSteps.Ferried(m0, s0, u0, t0, m, s, u, t, k)
    ensures RefsOk(m, s) && RefsOk(m, t) && Effect(m0, Claims(s0) + Claims(t0), m, Claims(s) + Claims(t))
      && Recounted(m0, m)
    ensures var v := CutterSteps.View(m0, s0, u0);
      k <= |v| && CutterSteps.View(m, s, u) == v[k..] && Bytes(m, t) == Bytes(m0, t0) + v[..k]
  {
  }

  /** A cutter goes on, and what it passes goes to another buffer. */
  lemma FerryKeeps(w: State, i: nat, j: nat, u0: nat, m: Mem, s: seq<BlockRef>, u: nat, t: seq<BlockRef>, k: nat)
    requires Ok(w) && IsBuffer(w, i) && IsBuffer(w, j) && i != j
    requires CutterSteps.Ferried(w.m, RefsAt(w, i), u0, RefsAt(w, j), m, s, u, t, k)
    ensures Ok(After2(w, i, j, m, s, t)) && Keeps(w, {i, j}, After2(w, i, j, m, s, t))
    ensures var v := CutterSteps.View(w.m, RefsAt(w, i), u0);
      k <= |v| && CutterSteps.View(m, s, u) == v[k..] && Bytes(m, t) == Seen(w, j) + v[..k]
  {
    hide Counted, ChainsOk, CutterSteps.Ferried, CutterSteps.View, Effect, Recounted, RefsOk, Claims, Keeps, Acts,
      Bytes;
    FerriedParts(w.m, RefsAt(w, i), u0, RefsAt(w, j), m, s, u, t, k);
    var v := After2(w, i, j, m, s, t);
    TlsStays2(w, i, j);
    TwoAct(w, i, j, v, Buffer(s), Buffer(t));
    BuffersAct(w, [i, j], v, {i, j});
  }

  lemma ViewSuffix(m: Mem, s: seq<BlockRef>, u: nat)
    requires Held(m, s) && CutterSteps.UsedOk(s, u)
    ensures u <= |Bytes(m, s)| && CutterSteps.View(m, s, u) == Bytes(m, s)[u..]
  {
    hide Bytes, CutterSteps.View, Slice, Piece;
    CutterSteps.ViewWhole(m, s);
    if s == [] {
      assert Bytes(m, s) == Bytes(m, s)[0..];
    } else {
      CutterSteps.ViewParts(m, s, 0, u);
    }
  }

  class Cursor {
    const t: Thread
    const i: nat          // the place of the buffer
    const c: IOBufCutter

    ghost predicate Valid()
      reads t, t.repr, c
    {
      && t.Valid() && t.HasBuffer(i) && c.buf == t.items[i].buf && c !in t.repr
      && |t.w.holders| == |t.items| && IsBuffer(t.w, i) && c.Over(RefsAt(t.w, i))
    }

    /** The bytes not yet cut. */
    ghost function Rest(): seq<Byte>
      reads t, c
    {
      if IsBuffer(t.w, i) then CutterSteps.View(t.w.m, RefsAt(t.w, i), c.UsedOf(RefsAt(t.w, i))) else []
    }

    constructor (t: Thread, i: nat)
      requires t.Valid() && t.HasBuffer(i)
      ensures this.t == t && this.i == i && fresh(c) && Valid() && Rest() == Seen(t.w, i)
    {
      hide RefQueue.Decode, Counted, ChainsOk, CutterSteps.View, Bytes;
      this.t, this.i := t, i;
      c := new IOBufCutter(t.items[i].buf);
      new;
      t.At(i);
      CutterSteps.ViewWhole(t.w.m, RefsAt(t.w, i));
    }

    /** The cutter is in order. */
    lemma Begin()
      requires Valid()
      ensures t.h in t.repr && c.Fine(t.h) && c.buf == t.items[i].buf && RefsAt(t.w, i) == c.buf.q.Refs()
        && t.w.m == t.h.m
    {
      hide Thread.Separated, Thread.Shows, Counted, ChainsOk, RefQueue.Decode, Held;
      t.At(i);
      CanAct(t.w, i);
    }

    /** Others have acted since the state `w`: the cutter goes on from where it was. */
    lemma Still(w: State, os: set<nat>)
      requires t.Valid() && t.HasBuffer(i) && c.buf == t.items[i].buf && c !in t.repr && |t.w.holders| == |t.items|
      requires Ok(w) && IsBuffer(w, i) && c.Over(RefsAt(w, i)) && Keeps(w, os, t.w) && i !in os
      ensures Valid() && Rest() == CutterSteps.View(w.m, RefsAt(w, i), c.UsedOf(RefsAt(w, i)))
    {
      hide Thread.Separated, Thread.Shows, Counted, ChainsOk, Bytes, CutterSteps.View, Held, Sound;
      var s, u := RefsAt(w, i), c.UsedOf(RefsAt(w, i));
      t.Begin();
      CanAct(w, i);
      CanAct(t.w, i);
      ViewSuffix(w.m, s, u);
      ViewSuffix(t.w.m, s, u);
    }

    method RemainingBytes() returns (n: nat)
      requires Valid()
      ensures n == |Rest()|
    {
      hide Thread.Separated, Thread.Shows, Counted, ChainsOk, RefQueue.Decode, Held, CutterSteps.View;
      Begin();
      n := c.RemainingBytes(t.h);
    }

    method Cut1() returns (ok: bool, x: Byte)
      requires Valid()
      modifies t.repr, c
      ensures Valid() && fresh(t.repr - old(t.repr)) && t.items == old(t.items) && t.h.fails == old(t.h.fails)
      ensures Keeps(old(t.w), {i}, t.w)
      ensures var rest := old(Rest());
        ok == (rest != []) && (ok ==> x == rest[0]) && Rest() == Skip(rest, 1)
    {
      hide Thread.Separated, Thread.Shows, Counted, ChainsOk, RefQueue.Decode, Held, CutterSteps.View,
        CutterSteps.Stepped, Keeps;
      t.At(i);
      Begin();
      ok, x := c.Cut1(t.h);
      t.w := After(t.w, i, t.h.m, t.Queue(i).Refs());
      t.repr := t.repr + {t.Queue(i).ring};
      t.Settle(Actors(i, i, 0));
      StepKeeps(old(t.w), i, old(c.UsedOf(RefsAt(t.w, i))), t.h.m, t.Queue(i).Refs(), c.Used(), if ok then 1 else 0);
    }

    method PopFront(n: nat) returns (popped: nat)
      requires Valid()
      modifies t.repr, c
      ensures Valid() && fresh(t.repr - old(t.repr)) && t.items == old(t.items) && t.h.fails == old(t.h.fails)
      ensures Keeps(old(t.w), {i}, t.w)
      ensures popped == Min(n, |old(Rest())|) && Rest() == Skip(old(Rest()), n)
    {
      hide Thread.Separated, Thread.Shows, Counted, ChainsOk, RefQueue.Decode, Held, CutterSteps.View,
        CutterSteps.Stepped, Keeps;
      t.At(i);
      Begin();
      popped := c.PopFront(n, t.h);
      t.w := After(t.w, i, t.h.m, t.Queue(i).Refs());
      t.repr := t.repr + {t.Queue(i).ring};
      t.Settle(Actors(i, i, 0));
      StepKeeps(old(t.w), i, old(c.UsedOf(RefsAt(t.w, i))), t.h.m, t.Queue(i).Refs(), c.Used(), popped);
      SkipIs(old(Rest()), n, popped);
    }

    /** copy_to: the bytes stay. */
    method CopyTo(n: nat) returns (out: seq<Byte>)
      requires Valid()
      modifies t.repr, c
      ensures Valid() && fresh(t.repr - old(t.repr)) && t.items == old(t.items) && t.h.fails == old(t.h.fails)
      ensures Keeps(old(t.w), {i}, t.w)
      ensures out == Chunks.Take(old(Rest()), n) && Rest() == old(Rest())
    {
      hide Thread.Separated, Thread.Shows, Counted, ChainsOk, RefQueue.Decode, Held, CutterSteps.View,
        CutterSteps.Stepped, Keeps, Chunks.Take;
      t.At(i);
      Begin();
      out := c.CopyTo(n, t.h);
      t.w := After(t.w, i, t.h.m, t.Queue(i).Refs());
      t.repr := t.repr + {t.Queue(i).ring};
      t.Settle(Actors(i, i, 0));
      StepKeeps(old(t.w), i, old(c.UsedOf(RefsAt(t.w, i))), t.h.m, t.Queue(i).Refs(), c.Used(), 0);
    }

    method CutnBytes(n: nat) returns (out: seq<Byte>)
      requires Valid()
      modifies t.repr, c
      ensures Valid() && fresh(t.repr - old(t.repr)) && t.items == old(t.items) && t.h.fails == old(t.h.fails)
      ensures Keeps(old(t.w), {i}, t.w)
      ensures out == Chunks.Take(old(Rest()), n) && Rest() == Skip(old(Rest()), n)
    {
      hide Thread.Separated, Thread.Shows, Counted, ChainsOk, RefQueue.Decode, Held, CutterSteps.View,
        CutterSteps.Stepped, Keeps;
      t.At(i);
      Begin();
      out := c.CutnBytes(n, t.h);
      t.w := After(t.w, i, t.h.m, t.Queue(i).Refs());
      t.repr := t.repr + {t.Queue(i).ring};
      t.Settle(Actors(i, i, 0));
      StepKeeps(old(t.w), i, old(c.UsedOf(RefsAt(t.w, i))), t.h.m, t.Queue(i).Refs(), c.Used(), |out|);
      SkipIs(old(Rest()), n, |out|);
    }

    /** cutn into buffer `j`. */
    method Cutn(j: nat, n: nat) returns (moved: nat)
      requires Valid() && t.HasBuffer(j) && j != i
      modifies t.repr, c
      ensures Valid() && fresh(t.repr - old(t.repr)) && t.items == old(t.items) && t.h.fails == old(t.h.fails)
      ensures Keeps(old(t.w), {i, j}, t.w)
      ensures moved == Min(n, |old(Rest())|) && Rest() == Skip(old(Rest()), n)
      ensures Seen(t.w, j) == Seen(old(t.w), j) + Chunks.Take(old(Rest()), n)
    {
      hide Thread.Separated, Thread.Shows, Counted, ChainsOk, RefQueue.Decode, Held, Held2, CutterSteps.View,
        CutterSteps.Ferried, Keeps, Bytes;
      t.At(i);
      t.At(j);
      t.Other(i, j);
      Begin();
      CanActTogether(t.w, i, j);
      moved := c.Cutn(t.items[j].buf, n, t.h);
      t.w := After2(t.w, i, j, t.h.m, t.Queue(i).Refs(), t.Queue(j).Refs());
      t.repr := t.repr + {t.Queue(i).ring, t.Queue(j).ring};
      t.Settle(Actors(i, j, 0));
      FerryKeeps(old(t.w), i, j, old(c.UsedOf(RefsAt(t.w, i))), t.h.m, t.Queue(i).Refs(), c.Used(),
        t.Queue(j).Refs(), moved);
      SkipIs(old(Rest()), n, moved);
    }
  }
}
