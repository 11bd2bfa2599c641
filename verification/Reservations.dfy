/** What reserve hands out is private to the buffer, and stays so while the buffer grows. */
module Reservations {
  import opened Blocks
  import opened RefLists
  import opened RefRuns
  import opened RefPlaces
  import opened TlsBlocks
  import opened Growth
  import opened Appends
  import opened Overwrites
  import opened NewPlaces
  import opened World
  import opened Privacy
  import opened Runs
  import opened Refinement

  /** What buffers refer to is taken. */
  lemma BufferTaken(w: State, j: nat, q: nat)
    requires Counted(w) && IsBuffer(w, j) && q < |PlacesAt(w, j)|
    ensures HasTls(w) && Taken(w.m, multiset(Tls(w)), PlacesAt(w, j)[q])
  {
    hide Counted, Places, Taken;
    SpotReady(w, j);
    HeldTaken(w.m, RefsAt(w, j), multiset(Tls(w)), q);
  }

  lemma PourAdds(w: State, i: nat, rs: seq<Round>, dry: bool, v: State)
    requires Counted(w) && PourDoes(w, i, rs, dry, v)
    ensures Added(SpotAt(w, i), SpotAt(v, i))
  {
    hide Counted, ReadyAt, Grown, Added;
    SpotReady(w, i);
    GrownAdds(SpotAt(w, i), rs, dry, SpotAt(v, i));
  }

  lemma SeenPlaces(w: State, i: nat)
    requires Counted(w) && IsBuffer(w, i)
    ensures |Seen(w, i)| == |PlacesAt(w, i)|
  {
    BufferSound(w, i);
    LengthsAgree(w.m, RefsAt(w, i));
  }

  lemma PourOnce(w: State, i: nat, rs: seq<Round>, dry: bool, v: State)
    requires Counted(w) && PourDoes(w, i, rs, dry, v)
    ensures var at := |PlacesAt(w, i)|; at <= |PlacesAt(v, i)| && Once(PlacesAt(v, i), at, |PlacesAt(v, i)| - at)
  {
    hide Counted, Grown, Places, NoDup, Taken, StillTaken;
    PourAdds(w, i, rs, dry, v);
    var at, qs := |PlacesAt(w, i)|, PlacesAt(v, i);
    var ps := qs[at..];
    assert qs[at..at + (|qs| - at)] == ps;
    forall q | 0 <= q < at
      ensures qs[q] !in ps
    {
      BufferTaken(w, i, q);
      assert qs[q] == PlacesAt(w, i)[q];
    }
  }

  /** Appended bytes are private. */
  lemma PourPrivate(w: State, i: nat, rs: seq<Round>, dry: bool, v: State)
    requires Counted(w) && Counted(v) && PourDoes(w, i, rs, dry, v)
    ensures Private(v, i, |Seen(w, i)|, |Poured(rs, |rs|)|)
  {
    hide Counted, Seen, Grown, Places, NoDup, Taken, StillTaken, Once, Poured;
    PourOnce(w, i, rs, dry, v);
    PourAdds(w, i, rs, dry, v);
    PourSees(w, i, rs, dry, v);
    SeenPlaces(w, i);
    SeenPlaces(v, i);
    var at, n := |Seen(w, i)|, |Poured(rs, |rs|)|;
    var ps := PlacesAt(v, i)[at..at + n];
    assert ps == PlacesAt(v, i)[at..];
    forall j: nat | IsBuffer(v, j) && j != i
      ensures Apart(ps, PlacesAt(v, j))
    {
      assert IsBuffer(w, j) && PlacesAt(v, j) == PlacesAt(w, j);
      forall q | 0 <= q < |PlacesAt(v, j)|
        ensures PlacesAt(v, j)[q] !in ps
      {
        BufferTaken(w, j, q);
      }
    }
  }

  /** A buffer grows by places that are not among the private ones. */
  lemma PrivateStays(w: State, i: nat, at: nat, n: nat, k: nat, v: State)
    requires Private(w, i, at, n) && IsBuffer(w, k) && IsBuffer(v, k)
    requires forall j: nat :: j != k ==> IsBuffer(v, j) == IsBuffer(w, j)
    requires forall j: nat :: j != k && IsBuffer(w, j) && IsBuffer(v, j) ==> RefsAt(v, j) == RefsAt(w, j)
    requires PlacesAt(w, k) <= PlacesAt(v, k)
    requires IsBuffer(w, i) && at + n <= |PlacesAt(w, i)|
    requires Apart(PlacesAt(w, i)[at..at + n], PlacesAt(v, k)[|PlacesAt(w, k)|..])
    ensures Private(v, i, at, n)
  {
    hide Places, NoDup;
    PrivateIs(w, i, at, n, k);
    var ps := PlacesAt(w, i)[at..at + n];
    assert PlacesAt(v, i)[at..at + n] == ps;
    var a := |PlacesAt(w, k)|;
    assert forall q :: 0 <= q < |PlacesAt(v, k)| ==>
      PlacesAt(v, k)[q] == if q < a then PlacesAt(w, k)[q] else PlacesAt(v, k)[a..][q - a];
    forall j: nat | IsBuffer(v, j) && j != i
      ensures Apart(ps, PlacesAt(v, j))
    {
      PrivateIs(w, i, at, n, j);
    }
  }

  /** Appending to a buffer, this one or another, keeps what is private. */
  lemma PourKeepsPrivate(w: State, i: nat, at: nat, n: nat, k: nat, rs: seq<Round>, dry: bool, v: State)
    requires Counted(w) && Private(w, i, at, n) && PourDoes(w, k, rs, dry, v)
    ensures Private(v, i, at, n)
  {
    hide Counted, Grown, Places, NoDup, Taken, StillTaken, Once, Private;
    PrivateIs(w, i, at, n, i);
    PourAdds(w, k, rs, dry, v);
    var ps, new' := PlacesAt(w, i)[at..at + n], PlacesAt(v, k)[|PlacesAt(w, k)|..];
    forall q | 0 <= q < |new'|
      ensures new'[q] !in ps
    {
      if new'[q] in ps {
        var l: nat :| l < |ps| && ps[l] == new'[q];
        BufferTaken(w, i, at + l);
        assert false;
      }
    }
    PrivateStays(w, i, at, n, k, v);
  }

  /** Sharing what another buffer holds keeps what is private. */
  lemma ShareKeepsPrivate(w: State, i: nat, at: nat, n: nat, j: nat, k: nat, p: nat, l: nat, v: State)
    requires Counted(w) && Private(w, i, at, n) && ShareDoes(w, j, k, p, l, v) && j != i
    ensures Private(v, i, at, n)
  {
    hide Counted, Places, NoDup, Once, Private, Share, TotalUpto;
    PrivateIs(w, i, at, n, j);
    var s, t := RefsAt(w, j), RefsAt(w, k);
    var a: nat, off: nat :|
      && a <= |s| && (a < |s| ==> off < s[a].length) && p == TotalUpto(s, a) + off
      && Share(w.m, s, a, off, l, t).0 == v.m && Share(w.m, s, a, off, l, t).1 == RefsAt(v, k);
    SharePlaces(w.m, s, a, off, l, t);
    PrivateStays(w, i, at, n, k, v);
  }

  // ---- The area of a reservation ----

  lemma {:induction false} GrowKeepsArea(a: Area, at: nat, count: nat, p: Spot, rs: seq<Round>, n: nat)
    requires AreaAt(a, p.s, at, count) && n <= |rs| && CanGrow(p, rs, n)
    ensures AreaAt(a, Grow(p, rs, n).s, at, count)
  {
    hide AreaAt, Serve, CanServe, PushMem, PushBack, Fill;
    if n > 0 {
      var q := Grow(p, rs, n - 1);
      GrowKeepsArea(a, at, count, p, rs, n - 1);
      ServeRefs(q, rs[n - 1]);
      var u := Serve(q, rs[n - 1]);
      AreaStays(a, q.s, at, count, NextRef(u, |rs[n - 1].chunk|));
    }
  }

  lemma {:induction false} ShareKeepsArea(a: Area, at: nat, count: nat, m: Mem, s: seq<BlockRef>, i: nat, off: nat,
    n: nat,
    t: seq<BlockRef>)
    requires AreaAt(a, t, at, count)
    ensures AreaAt(a, Share(m, s, i, off, n, t).1, at, count)
    decreases |s| - i
  {
    hide AreaAt, PushMem, PushBack;
    if !(n == 0 || i >= |s|) {
      var r := Piece(s[i], off, Min(n, Over(s[i].length, off)));
      AreaStays(a, t, at, count, r);
      ShareKeepsArea(a, at, count, PushMem(m, t, r), s, i + 1, 0, Over(n, Over(s[i].length, off)), PushBack(t, r));
    }
  }

  ghost predicate Lost(w: State, i: nat, area: Area, at: nat, count: nat) {
    !IsBuffer(w, i) || !AreaAt(area, RefsAt(w, i), at, count) || (area.Area? && !Private(w, i, at, count))
  }

  /** The area, if there is one, is that of `count` private bytes of the buffer from `at` on. */
  ghost predicate Reserved(w: State, i: nat, area: Area, at: nat, count: nat) {
    !Lost(w, i, area, at, count)
  }

  lemma PourReserves(w: State, i: nat, rs: seq<Round>, dry: bool, v: State, area: Area, count: nat)
    requires Counted(w) && Counted(v) && PourDoes(w, i, rs, dry, v)
    requires AreaAt(area, RefsAt(v, i), |Seen(w, i)|, count) && (area.Area? ==> |Poured(rs, |rs|)| == count)
    ensures Reserved(v, i, area, |Seen(w, i)|, count)
  {
    hide Counted, Seen, Grown, Private, AreaAt, Poured;
    PourPrivate(w, i, rs, dry, v);
  }

  lemma PourKeepsReserved(w: State, i: nat, rs: seq<Round>, dry: bool, v: State, area: Area, at: nat, count: nat)
    requires Counted(w) && PourDoes(w, i, rs, dry, v) && Reserved(w, i, area, at, count)
    ensures Reserved(v, i, area, at, count)
  {
    hide Counted, Private, AreaAt, Grow, CanGrow, DropHeads;
    GrowKeepsArea(area, at, count, SpotAt(w, i), rs, |rs|);
    if area.Area? {
      PourKeepsPrivate(w, i, at, count, i, rs, dry, v);
    }
  }

  lemma ShareKeepsReserved(w: State, j: nat, i: nat, p: nat, l: nat, v: State, area: Area, at: nat, count: nat)
    requires Counted(w) && ShareDoes(w, j, i, p, l, v) && Reserved(w, i, area, at, count)
    ensures Reserved(v, i, area, at, count)
  {
    hide Counted, Private, AreaAt, Share, TotalUpto;
    var s, t := RefsAt(w, j), RefsAt(w, i);
    var a: nat, off: nat :|
      && a <= |s| && (a < |s| ==> off < s[a].length) && p == TotalUpto(s, a) + off
      && Share(w.m, s, a, off, l, t).0 == v.m && Share(w.m, s, a, off, l, t).1 == RefsAt(v, i);
    ShareKeepsArea(area, at, count, w.m, s, a, off, l, t);
    if area.Area? {
      ShareKeepsPrivate(w, i, at, count, j, i, p, l, v);
    }
  }
}
