/** Records. The data of their metas and their payloads are buffers of a thread. */
module Records {
  import opened Chunks
  import opened RecordFormat
  import opened RefRuns
  import opened World
  import opened ChainLinks
  import opened Runs
  import opened Refinement
  import opened Cursors
  import opened Threads

  // --- Names ---

  /** The names a record can hold: distinct, of 1 to 256 bytes. */
  ghost predicate Named(ms: seq<Meta>) {
    && (forall i :: 0 <= i < |ms| ==> 1 <= |ms[i].name| <= 256)
    && (forall i, j :: 0 <= i < j < |ms| ==> ms[i].name != ms[j].name)
  }

  /** A record with such names that was written is read back unless some name has 256 bytes or it is too big. */
  lemma NamedReadable(c: Content, max: nat)
    requires Named(c.metas) && Writable(c)
    ensures Readable(c, max) <==>
            |Body(c)| <= max && (forall i :: 0 <= i < |c.metas| ==> |c.metas[i].name| != 256)
  {
    hide Writable, Body;
    forall k | 0 <= k < |c.metas|
      ensures !HasName(c.metas[..k], c.metas[k].name)
    {
    }
    if Readable(c, max) {
      forall i | 0 <= i < |c.metas|
        ensures |c.metas[i].name| != MAX_NAME_SIZE
      {
        assert GoodName(c.metas[..i], c.metas[i].name);
      }
    }
  }

  /** A record that MutableMeta lets one make and the writer accepts, with one name of 256 bytes. */
  function LongNamed(): Content {
    Content([Meta(seq(256, _ => 1), [])], [])
  }

  /** It is written and never read back: the length byte of its name is 0. */
  lemma LongNameIsLost(s: seq<Byte>, max: nat)
    ensures Named(LongNamed().metas) && Writable(LongNamed())
    ensures At(s, 0, Print(LongNamed())) ==> RecordFormat.CutRecord(s, max).Bad?
  {
    hide Print, CutRecord, At;
    var c := LongNamed();
    var m := c.metas[0];
    assert |m.name| == 256;
    assert WireFrom(c.metas, 0) == MetaBytes(m, false) + WireFrom(c.metas, 1);
    assert |Body(c)| == 261;
    NamedReadable(c, max);
    if At(s, 0, Print(c)) {
      PrintedReads(s, c, max);
    }
  }

  /** A meta and a record, with the places of their buffers in the thread. */
  datatype Part = Part(name: seq<Byte>, data: nat)
  datatype Parts = Parts(metas: seq<Part>, payload: nat)

  function MetasAt(w: State, ps: seq<Part>): (ms: seq<Meta>)
    requires forall k :: 0 <= k < |ps| ==> ps[k].data < |w.holders|
    ensures |ms| == |ps| && forall k :: 0 <= k < |ps| ==> ms[k] == Meta(ps[k].name, Seen(w, ps[k].data))
  {
    seq(|ps|, k requires 0 <= k < |ps| => Meta(ps[k].name, Seen(w, ps[k].data)))
  }

  function ContentAt(w: State, rec: Parts): Content
    requires rec.payload < |w.holders| && forall k :: 0 <= k < |rec.metas| ==> rec.metas[k].data < |w.holders|
  {
    Content(MetasAt(w, rec.metas), Seen(w, rec.payload))
  }

  /** A list of metas with the last put in the place of the `i`th. */
  function Removed<T>(ms: seq<T>, i: nat): seq<T>
    requires i < |ms|
  {
    ms[i := ms[|ms| - 1]][..|ms| - 1]
  }

  lemma RemovedBag(ms: seq<Meta>, i: nat)
    requires i < |ms|
    ensures multiset(Removed(ms, i)) == multiset(ms) - multiset{ms[i]}
  {
    var n := |ms| - 1;
    if i == n {
      assert ms == Removed(ms, i) + [ms[n]];
    } else {
      var a, b := ms[..i], ms[i + 1..n];
      assert ms == a + [ms[i]] + b + [ms[n]];
      assert Removed(ms, i) == a + [ms[n]] + b;
    }
  }

  lemma RemovedNamed(ms: seq<Meta>, i: nat)
    requires i < |ms| && Named(ms)
    ensures Named(Removed(ms, i)) && !HasName(Removed(ms, i), ms[i].name)
  {
    var t := Removed(ms, i);
    assert forall j :: 0 <= j < |t| ==> t[j] == if j == i then ms[|ms| - 1] else ms[j];
  }

  ghost predicate Doubled(ps: seq<Part>, payload: nat) {
    || (exists k :: 0 <= k < |ps| && ps[k].data == payload)
    || (exists k, l :: 0 <= k < l < |ps| && ps[k].data == ps[l].data)
  }

  lemma RemovedPlaces(w: State, ps: seq<Part>, i: nat, payload: nat)
    requires i < |ps| && !Doubled(ps, payload) && forall k :: 0 <= k < |ps| ==> ps[k].data < |w.holders|
    ensures var t := Removed(ps, i);
      && !Doubled(t, payload) && (forall k :: 0 <= k < |t| ==> t[k] in ps && t[k].data < |w.holders|)
      && MetasAt(w, t) == Removed(MetasAt(w, ps), i)
  {
    hide Seen;
    var t := Removed(ps, i);
    assert forall j :: 0 <= j < |t| ==> t[j] == if j == i then ps[|ps| - 1] else ps[j];
  }

  /** What a record has is seen as before when its buffers are kept. */
  lemma MetasKept(w: State, ps: seq<Part>, os: set<nat>, v: State)
    requires Keeps(w, os, v) && forall k :: 0 <= k < |ps| ==> ps[k].data < |w.holders| && ps[k].data !in os
    ensures (forall k :: 0 <= k < |ps| ==> ps[k].data < |v.holders|) && MetasAt(v, ps) == MetasAt(w, ps)
  {
    hide Seen;
    forall k | 0 <= k < |ps|
      ensures ps[k].data < |v.holders| && Seen(v, ps[k].data) == Seen(w, ps[k].data)
    {
    }
  }

  lemma SeenKept(w: State, k: nat, os: set<nat>, v: State)
    requires Keeps(w, os, v) && k < |w.holders| && k !in os
    ensures k < |v.holders| && Seen(v, k) == Seen(w, k)
  {
  }

  lemma ContentKept(w: State, rec: Parts, os: set<nat>, v: State)
    requires Keeps(w, os, v) && rec.payload < |w.holders| && rec.payload !in os
    requires forall k :: 0 <= k < |rec.metas| ==> rec.metas[k].data < |w.holders| && rec.metas[k].data !in os
    ensures rec.payload < |v.holders| && (forall k :: 0 <= k < |rec.metas| ==> rec.metas[k].data < |v.holders|)
    ensures ContentAt(v, rec) == ContentAt(w, rec)
  {
    hide Seen, Keeps;
    MetasKept(w, rec.metas, os, v);
    SeenKept(w, rec.payload, os, v);
  }

  /** The buffer of the last meta, empty so far, gets bytes. */
  lemma LastFilled(w: State, rec: Parts, os: set<nat>, v: State, x: seq<Byte>)
    requires var n := |rec.metas| - 1;
      && n >= 0 && !Doubled(rec.metas, rec.payload) && Keeps(w, os, v) && rec.payload < |w.holders|
      && (forall k :: 0 <= k <= n ==> rec.metas[k].data < |w.holders|)
      && rec.payload !in os && (forall k :: 0 <= k < n ==> rec.metas[k].data !in os)
      && rec.metas[n].data < |v.holders| && Seen(v, rec.metas[n].data) == x
    ensures rec.payload < |v.holders| && (forall k :: 0 <= k < |rec.metas| ==> rec.metas[k].data < |v.holders|)
    ensures var n := |rec.metas| - 1; var c := ContentAt(w, rec);
      ContentAt(v, rec) == Content(c.metas[..n] + [Meta(rec.metas[n].name, x)], c.payload)
  {
    hide Seen, Keeps;
    var n := |rec.metas| - 1;
    MetasKept(w, rec.metas[..n], os, v);
    SeenKept(w, rec.payload, os, v);
    assert MetasAt(w, rec.metas[..n]) == MetasAt(w, rec.metas)[..n];
    assert forall k :: 0 <= k < n ==> rec.metas[k] == rec.metas[..n][k];
    assert MetasAt(v, rec.metas) == MetasAt(v, rec.metas[..n]) + [Meta(rec.metas[n].name, x)];
  }

  lemma NamedOn(ms: seq<Meta>, name: seq<Byte>)
    requires !HasName(ms, name) && 1 <= |name| <= MAX_NAME_SIZE
    ensures Named(ms) ==> Named(ms + [Meta(name, [])])
  {
  }

  lemma ClearKeeps(w: State, i: nat, v: State)
    requires Counted(w) && Does(w, Op.Clear(i), v)
    ensures Keeps(w, {i}, v) && i < |v.holders| && Seen(v, i) == []
  {
    hide Counted, DropAll, Seen;
    DoesRefines(w, Op.Clear(i), v);
    forall k | 0 <= k < |w.holders| && k != i
      ensures k < |v.holders| && v.holders[k] == w.holders[k] && Seen(v, k) == Seen(w, k)
    {
      assert View(v)[k] == View(w)[k];
    }
    assert View(v)[i] == [];
  }

  lemma ComesKept(w: State, v: State)
    requires Does(w, Op.NewBuffer, v)
    ensures Keeps(w, {}, v) && |v.holders| == |w.holders| + 1 && Seen(v, |w.holders|) == []
  {
    hide Seen;
    ComesSees(w, Buffer([]), v, |w.holders|);
    forall k | 0 <= k < |w.holders|
      ensures Seen(v, k) == Seen(w, k)
    {
      ComesSees(w, Buffer([]), v, k);
    }
  }

  class Record {
    const t: Thread
    const payload: nat
    var metas: seq<Part>

    ghost predicate Valid()
      reads this, t, t.repr
    {
      && t.Valid() && |t.w.holders| == |t.items| && this !in t.repr && t.HasBuffer(payload) && !Doubled(metas, payload)
      && forall k :: 0 <= k < |metas| ==> t.HasBuffer(metas[k].data)
    }

    ghost predicate Has(i: nat)
      reads this
    {
      i == payload || exists k :: 0 <= k < |metas| && metas[k].data == i
    }

    function Places(): Parts
      reads this
    {
      Parts(metas, payload)
    }

    ghost function Value(): Content
      reads this, t, t.repr
      requires Valid()
    {
      ContentAt(t.w, Places())
    }

    constructor (t: Thread)
      requires t.Valid()
      modifies t.repr
      ensures this.t == t && Valid() && payload == |old(t.items)| && metas == [] && Value() == Content([], [])
      ensures fresh(t.repr - old(t.repr)) && t.h.fails == old(t.h.fails) && old(t.items) <= t.items
      ensures Keeps(old(t.w), {}, t.w)
    {
      hide Thread.Separated, Thread.Shows, Counted, ChainsOk, Seen, Keeps;
      t.Begin();
      var p := t.NewBuffer();
      this.t, payload, metas := t, p, [];
      new;
      t.Begin();
      ComesKept(old(t.w), t.w);
    }

    /** The place of the meta called `name`, or -1: the loop of Meta, MutableMeta and RemoveMeta. */
    method FindMeta(name: seq<Byte>) returns (k: int)
      requires Valid()
      ensures HasName(Value().metas, name) ==> 0 <= k < |metas| && metas[k].name == name
      ensures !HasName(Value().metas, name) ==> k == -1
    {
      hide Thread.Valid, Seen;
      ghost var ms := Value().metas;
      for i := 0 to |metas|
        invariant forall j :: 0 <= j < i ==> metas[j].name != name
      {
        if metas[i].name == name {
          assert ms[i].name == name;
          return i;
        }
      }
      assert forall j :: 0 <= j < |metas| ==> ms[j].name == metas[j].name;
      return -1;
    }

    /** A new meta with a new buffer. */
    method AddMeta(name: seq<Byte>)
      requires Valid()
      modifies this, t.repr
      ensures Valid() && fresh(t.repr - old(t.repr)) && t.h.fails == old(t.h.fails) && old(t.items) <= t.items
      ensures Keeps(old(t.w), {}, t.w) && metas == old(metas) + [Part(name, |old(t.items)|)]
      ensures Value() == Content(old(Value()).metas + [Meta(name, [])], old(Value()).payload)
    {
      hide Thread.Separated, Thread.Shows, Counted, ChainsOk, Seen, Keeps;
      ghost var ms := Value().metas;
      var data := t.NewBuffer();
      ComesKept(old(t.w), t.w);
      t.Begin();
      MetasKept(old(t.w), metas, {}, t.w);
      SeenKept(old(t.w), payload, {}, t.w);
      metas := metas + [Part(name, data)];
      assert MetasAt(t.w, metas) == ms + [Meta(name, [])];
    }

    /** The place of the meta called `name`, added if new; -1 if it cannot be, or is there and should not be. */
    method MutableMeta(name: seq<Byte>, nullOnFound: bool) returns (k: int)
      requires Valid()
      modifies this, t.repr
      ensures Valid() && fresh(t.repr - old(t.repr)) && t.h.fails == old(t.h.fails) && old(t.items) <= t.items
      ensures Keeps(old(t.w), {}, t.w) && (k == -1 ==> metas == old(metas))
      ensures var ms := old(Value()).metas;
        && Value().payload == old(Value()).payload && (Named(ms) ==> Named(Value().metas))
        && (HasName(ms, name) ==> Value().metas == ms)
        && (HasName(ms, name) && nullOnFound ==> k == -1)
        && (HasName(ms, name) && !nullOnFound ==> 0 <= k < |ms| && ms[k].name == name)
        && (!HasName(ms, name) && !(1 <= |name| <= 256) ==> k == -1 && Value().metas == ms)
        && (!HasName(ms, name) && 1 <= |name| <= 256 ==>
          k == |ms| && metas == old(metas) + [Part(name, |old(t.items)|)] && Value().metas == ms + [Meta(name, [])])
    {
      hide Thread.Valid, Seen, Keeps, Named;
      ghost var ms := Value().metas;
      KeepsSelf(t.w, {});
      k := FindMeta(name);
      if k >= 0 {
        return if nullOnFound then -1 else k;
      }
      if |name| > MAX_NAME_SIZE {
        return -1;
      } else if name == [] {
        return -1;
      }
      k := |metas|;
      NamedOn(ms, name);
      AddMeta(name);
    }

    method RemoveMeta(name: seq<Byte>) returns (found: bool)
      requires Valid() && Named(Value().metas)
      modifies this
      ensures Valid()
      ensures var ms := old(Value()).metas;
        && Value().payload == old(Value()).payload && Named(Value().metas)
        && found == HasName(ms, name) && !HasName(Value().metas, name)
        && (!found ==> Value().metas == ms)
        && (found ==> exists m ::
          m in ms && m.name == name && multiset(Value().metas) == multiset(ms) - multiset{m})
    {
      hide Thread.Valid, Seen, Doubled, Named;
      ghost var ms := Value().metas;
      var i := FindMeta(name);
      if i < 0 {
        return false;
      }
      RemovedBag(ms, i);
      RemovedNamed(ms, i);
      assert ms[i] in ms && ms[i].name == name;
      RemovedPlaces(t.w, metas, i, payload);
      metas := metas[i := metas[|metas| - 1]];
      metas := metas[..|metas| - 1];
      return true;
    }

    /** No metas and no payload; the buffers of the metas are given up. */
    method Clear()
      requires Valid()
      modifies this, t.repr
      ensures Valid() && fresh(t.repr - old(t.repr)) && t.h.fails == old(t.h.fails) && t.items == old(t.items)
      ensures metas == [] && Value() == Content([], []) && Keeps(old(t.w), {payload}, t.w)
    {
      hide Thread.Separated, Thread.Shows, Counted, ChainsOk, Seen, Keeps;
      t.Clear(payload);
      t.Begin();
      ClearKeeps(old(t.w), payload, t.w);
      metas := [];
    }

    /** The size the record will have when written. */
    method ByteSize() returns (n: nat)
      requires Valid()
      ensures Writable(Value()) ==> n == |Print(Value())|
    {
      hide WireFrom, Thread.Separated, Thread.Shows, Counted, ChainsOk, Seen;
      ghost var ms := Value().metas;
      n := t.Length(payload);
      n := HEAD + n;
      for i := 0 to |metas|
        invariant n == HEAD + |Seen(t.w, payload)| + SizeUpto(ms, i)
      {
        var k := t.Length(metas[i].data);
        n := n + 5 + |metas[i].name| + k;
      }
      if AllSmall(ms) {
        SizeFrom(ms, 0);
      }
    }
  }
}
