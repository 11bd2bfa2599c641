/** The bytes of memory that a list of refs names, one after the other. */
module RefPlaces {
  import opened Blocks
  import opened RefLists
  import opened RefRuns

  /** One byte of one block. */
  datatype Place = Place(block: BlockId, at: nat)

  function SpanUpto(r: BlockRef, n: nat): seq<Place> {
    if n == 0 then [] else SpanUpto(r, n - 1) + [Place(r.block, r.offset + n - 1)]
  }

  /** The places of a ref. */
  function Span(r: BlockRef): seq<Place> {
    SpanUpto(r, r.length)
  }

  function PlacesUpto(s: seq<BlockRef>, n: nat): seq<Place>
    requires n <= |s|
  {
    if n == 0 then [] else PlacesUpto(s, n - 1) + Span(s[n - 1])
  }

  function Places(s: seq<BlockRef>): seq<Place> {
    PlacesUpto(s, |s|)
  }

  lemma {:induction false} SpanIs(r: BlockRef, n: nat)
    ensures |SpanUpto(r, n)| == n
    ensures forall k :: 0 <= k < n ==> SpanUpto(r, n)[k] == Place(r.block, r.offset + k)
  {
    if n > 0 {
      SpanIs(r, n - 1);
    }
  }

  lemma {:induction false} PlacesLength(s: seq<BlockRef>, n: nat)
    requires n <= |s|
    ensures |PlacesUpto(s, n)| == TotalUpto(s, n)
  {
    if n > 0 {
      PlacesLength(s, n - 1);
      SpanIs(s[n - 1], s[n - 1].length);
    }
  }

  lemma {:induction false} PlacesSame(s: seq<BlockRef>, t: seq<BlockRef>, n: nat)
    requires n <= |s| && n <= |t| && forall i :: 0 <= i < n ==> s[i] == t[i]
    ensures PlacesUpto(s, n) == PlacesUpto(t, n)
  {
    if n > 0 {
      PlacesSame(s, t, n - 1);
    }
  }

  lemma SpanMerge(x: BlockRef, r: BlockRef)
    requires x.block == r.block && x.offset + x.length == r.offset
    ensures Span(x.(length := x.length + r.length)) == Span(x) + Span(r)
  {
    SpanIs(x.(length := x.length + r.length), x.length + r.length);
    SpanIs(x, x.length);
    SpanIs(r, r.length);
  }

  /** Merged or not, a ref adds its places. */
  lemma PushPlaces(s: seq<BlockRef>, r: BlockRef)
    ensures Places(PushBack(s, r)) == Places(s) + Span(r)
  {
    hide Span;
    var k := |s| - 1;
    if Merges(s, r) {
      var x := s[k].(length := s[k].length + r.length);
      PlacesSame(s, PushBack(s, r), k);
      SpanMerge(s[k], r);
      assert Places(PushBack(s, r)) == PlacesUpto(s, k) + Span(x);
      assert Places(s) == PlacesUpto(s, k) + Span(s[k]);
    } else {
      PlacesSame(s, PushBack(s, r), |s|);
    }
  }

  /** Every place of the one list is in the other. */
  ghost predicate Within(ps: seq<Place>, qs: seq<Place>) {
    forall k :: 0 <= k < |ps| ==> ps[k] in qs
  }

  lemma PieceWithin(s: seq<BlockRef>, i: nat, off: nat, k: nat)
    requires i < |s| && (k > 0 ==> off + k <= s[i].length)
    ensures Within(Span(Piece(s[i], off, k)), Places(s))
  {
    var r := Piece(s[i], off, k);
    SpanIs(r, k);
    SpanIs(s[i], s[i].length);
    SpanIn(s, i, |s|);
    forall l | 0 <= l < |Span(r)|
      ensures Span(r)[l] in Places(s)
    {
      assert Span(r)[l] == Span(s[i])[off + l];
    }
  }

  lemma {:induction false} SpanIn(s: seq<BlockRef>, i: nat, n: nat)
    requires i < n <= |s|
    ensures Within(Span(s[i]), PlacesUpto(s, n))
  {
    hide Span;
    if i < n - 1 {
      SpanIn(s, i, n - 1);
    }
  }

  lemma WithinTrans(ps: seq<Place>, qs: seq<Place>, rs: seq<Place>)
    requires Within(ps, rs) && Within(qs, rs)
    ensures Within(ps + qs, rs)
  {
  }

  /** Sharing adds places of the other buffer. */
  lemma {:induction false} SharePlaces(m: Mem, s: seq<BlockRef>, i: nat, off: nat, n: nat, t: seq<BlockRef>)
    ensures var u := Share(m, s, i, off, n, t).1;
      Places(t) <= Places(u) && Within(Places(u)[|Places(t)|..], Places(s))
    decreases |s| - i
  {
    hide Places, Span, PushMem, PushBack;
    if !(n == 0 || i >= |s|) {
      var k := Min(n, Over(s[i].length, off));
      var r := Piece(s[i], off, k);
      PieceWithin(s, i, off, k);
      PushPlaces(t, r);
      SharePlaces(PushMem(m, t, r), s, i + 1, 0, Over(n, Over(s[i].length, off)), PushBack(t, r));
      var u := Share(m, s, i, off, n, t).1;
      var a, b := |Places(t)|, |Places(t) + Span(r)|;
      assert Places(u)[a..] == Span(r) + Places(u)[b..];
      WithinTrans(Span(r), Places(u)[b..], Places(s));
    }
  }
}
