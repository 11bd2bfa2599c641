/** Byte sequences, and lists of them laid end to end. */
module Chunks {

  type Byte = bv8

  ghost predicate Differ<T>(a: T, b: T) {
    a != b
  }

  /** Equality, proved without a look at the elements. */
  ghost predicate Eq<T>(a: T, b: T) {
    !Differ(a, b)
  }

  lemma EqIs<T>(a: T, b: T, c: T)
    requires Eq(a, b) && Eq(b, c)
    ensures Eq(a, c) && Eq(b, a)
  {
  }

  lemma EqSym<T>(a: T, b: T)
    requires Eq(a, b)
    ensures Eq(b, a)
  {
  }

  lemma Nil(a: seq<Byte>)
    ensures Eq([] + a, a) && Eq(a + [], a)
  {
    assert [] + a == a == a + [];
  }

  lemma LongerDiffers(a: seq<Byte>, b: seq<Byte>)
    requires |a| != |b|
    ensures !Eq(a, b)
  {
  }

  lemma EmptySame(a: seq<Byte>, b: seq<Byte>)
    requires |a| == |b| && (a == [] || b == [])
    ensures Eq(a, b)
  {
    assert a == b;
  }

  /** Equal parts of equal length make equal wholes, and only those do. */
  lemma EqualParts(a: seq<Byte>, x: seq<Byte>, u: seq<Byte>, b: seq<Byte>, y: seq<Byte>, v: seq<Byte>)
    requires Eq(a, x + u) && Eq(b, y + v) && |x| == |y| && |a| == |b|
    ensures Eq(a, b) == (x == y && Eq(u, v)) && |u| == |v| == |a| - |x|
  {
    Split(x, u);
    Split(y, v);
  }

  lemma TakeOne(a: seq<Byte>)
    requires |a| == 1
    ensures a[..1] == [a[0]] && a[..0] == []
  {
  }

  lemma TakeEnds(a: seq<Byte>)
    ensures a[..0] == [] && a[..|a|] == a
  {
  }

  lemma TakeNext(a: seq<Byte>, p: nat, q: nat)
    requires p <= q <= |a|
    ensures a[..p] + a[p..q] == a[..q]
  {
  }

  lemma Whole(a: seq<Byte>)
    ensures Eq(a[0..|a|], a) && Eq(a[..|a|], a) && Eq(a[0..], a)
  {
    assert a[0..|a|] == a[..|a|] == a == a[0..];
  }

  lemma Empty(a: seq<Byte>, n: nat)
    requires n <= |a|
    ensures Eq(a[n..n], [])
  {
    assert a[n..n] == [];
  }

  lemma Assoc(a: seq<Byte>, b: seq<Byte>, c: seq<Byte>)
    ensures Eq((a + b) + c, a + (b + c))
  {
    assert (a + b) + c == a + (b + c);
  }

  lemma Regroup(a: seq<Byte>, u: seq<Byte>, x: seq<Byte>, y: seq<Byte>, z: seq<Byte>, xy: seq<Byte>)
    requires Eq(a, u + (xy + z)) && Eq(xy, x + y)
    ensures Eq(a, (u + x) + (y + z))
  {
    assert a == (u + x) + (y + z);
  }

  lemma Split(a: seq<Byte>, b: seq<Byte>)
    ensures (a + b)[..|a|] == a && (a + b)[|a|..] == b && (a + b)[..|a + b| - |b|] == a
  {
  }

  lemma SameSlice(x: seq<Byte>, a: seq<Byte>, p: nat)
    requires p + |x| <= |a| && forall j :: 0 <= j < |x| ==> x[j] == a[p + j]
    ensures x == a[p..p + |x|]
  {
  }

  lemma Nested(a: seq<Byte>, q: nat, n: nat, off: nat, k: nat, p: nat)
    requires off + k <= n && q + n <= |a| && p == q + off
    ensures Eq(a[q..q + n][off..off + k], a[p..p + k])
  {
    var x := a[q..q + n][off..off + k];
    forall j | 0 <= j < |x|
      ensures x[j] == a[p + j]
    {
    }
    SameSlice(x, a, p);
  }

  lemma PartOf(b: seq<Byte>, o: nat, n: nat, x: seq<Byte>, off: nat, k: nat, y: seq<Byte>, p: nat, q: nat)
    requires off + k <= n == |x| && o + n <= |b| && p == o + off && q == p + k
    requires Eq(b[o..o + n], x) && Eq(y, x[off..off + k])
    ensures Eq(y, b[p..q])
  {
    Nested(b, o, n, off, k, p);
  }

  lemma Mid(all: seq<Byte>, pre: seq<Byte>, x: seq<Byte>, post: seq<Byte>, p: nat, n: nat)
    requires Eq(all, pre + (x + post)) && p == |pre| && n == |x|
    ensures p + n <= |all| && Eq(all[p..p + n], x)
  {
    assert all[p..p + n] == x;
  }

  lemma DropFirst(a: seq<Byte>, x: seq<Byte>, y: seq<Byte>, k: nat, lo: nat, hi: nat)
    requires Eq(a, x + y) && k <= |y| && lo == |x| + k && hi == |a|
    ensures lo <= hi && Eq(y[k..], a[lo..hi]) && Eq(y[k..|y|], a[lo..hi]) && Eq(y[k..], a[lo..])
  {
    assert y[k..] == y[k..|y|] == a[lo..hi] == a[lo..];
  }

  lemma DropLast(a: seq<Byte>, x: seq<Byte>, y: seq<Byte>, k: nat)
    requires Eq(a, x + y) && k <= |x|
    ensures k <= |a| && Eq(x[0..k], a[0..k])
  {
    assert x[0..k] == a[0..k];
  }

  lemma TakeMore(a: seq<Byte>, x: seq<Byte>, y: seq<Byte>, k: nat, n: nat)
    requires Eq(a, x + y) && k <= |y| && n == |x| + k
    ensures n <= |a| && Eq(a[..n], x + y[..k])
  {
    assert a[..n] == x + y[..k];
  }

  /** At most `n` bytes. */
  function Take(a: seq<Byte>, n: nat): seq<Byte> {
    if n <= |a| then a[..n] else a
  }

  /** What is left without the first `n` bytes. */
  function Skip(a: seq<Byte>, n: nat): seq<Byte> {
    if n < |a| then a[n..] else []
  }

  lemma SkipIs(a: seq<Byte>, n: nat, k: nat)
    requires k == if n < |a| then n else |a|
    ensures a[k..] == Skip(a, n) && a[..k] == Take(a, n)
  {
  }

  lemma SkipAgain(a: seq<Byte>, n: nat, k: nat)
    ensures Skip(Skip(a, n), k) == Skip(a, n + k)
    ensures n + k <= |a| ==> Take(Skip(a, n), k) == a[n..n + k]
  {
  }

  /** At most `n` bytes of `a` from `p` on. */
  function Substr(a: seq<Byte>, p: nat, n: nat): seq<Byte> {
    if p <= |a| then Take(a[p..], n) else []
  }

  lemma TakeMin(out: seq<Byte>, a: seq<Byte>, n: nat, k: nat)
    requires k == (if n < |a| then n else |a|) && Eq(out, Take(a, k))
    ensures Eq(out, Take(a, n)) && |out| == k
  {
    assert Take(a, n) == Take(a, k);
  }

  lemma TakeNone(a: seq<Byte>)
    ensures Eq(Take(a, 0), [])
  {
    assert Take(a, 0) == [];
  }

  lemma TakeNoneAfter(out: seq<Byte>, a: seq<Byte>)
    ensures Eq(out, out + Take(a, 0))
  {
    TakeNone(a);
    Nil(out);
  }

  lemma TakeInFirst(x: seq<Byte>, y: seq<Byte>, n: nat)
    requires n <= |x|
    ensures Eq(Take(x + y, n), Take(x, n) + [])
  {
    assert Take(x + y, n) == Take(x, n) + [];
  }

  lemma TakePastFirst(x: seq<Byte>, y: seq<Byte>, n: nat, k: nat)
    requires n == |x| + k
    ensures Eq(Take(x + y, n), x + Take(y, k))
  {
    assert Take(x + y, n) == x + Take(y, k);
  }

  lemma SubstrNone(a: seq<Byte>, p: nat, n: nat)
    requires p >= |a|
    ensures Eq(Substr(a, p, n), [])
  {
    assert Substr(a, p, n) == [];
  }

  lemma SubstrLength(a: seq<Byte>, p: nat, n: nat)
    ensures |Substr(a, p, n)| == if p >= |a| then 0 else if p + n <= |a| then n else |a| - p
  {
  }

  lemma SubstrAll(a: seq<Byte>, n: nat)
    requires n == |a|
    ensures Eq(Substr(a, 0, n), a)
  {
    assert Substr(a, 0, n) == a;
  }

  lemma DropAllIs(a: seq<Byte>, n: nat)
    requires n == |a|
    ensures Eq(a[n..], []) && Eq(a[..n], a)
  {
    assert a[n..] == [] && a[..n] == a;
  }

  lemma SubstrTake(a: seq<Byte>, x: seq<Byte>, y: seq<Byte>, p: nat, n: nat)
    requires Eq(a, x + y) && p == |x|
    ensures Eq(Substr(a, p, n), Take(y, n))
  {
    Split(x, y);
  }

  /** The first `n` chunks laid end to end. */
  function Flat(c: seq<seq<Byte>>, n: nat): seq<Byte>
    requires n <= |c|
  {
    if n == 0 then [] else Flat(c, n - 1) + c[n - 1]
  }

  function Size(c: seq<seq<Byte>>, n: nat): nat
    requires n <= |c|
  {
    if n == 0 then 0 else Size(c, n - 1) + |c[n - 1]|
  }

  lemma {:induction false} SizeMonotone(c: seq<seq<Byte>>, i: nat, n: nat)
    requires i <= n <= |c|
    ensures Size(c, i) <= Size(c, n)
  {
    if i < n {
      SizeMonotone(c, i, n - 1);
    }
  }

  lemma {:induction false} FlatPrefix(c: seq<seq<Byte>>, i: nat, n: nat)
    requires i <= n <= |c|
    ensures Flat(c, i) <= Flat(c, n)
  {
    if i < n {
      FlatPrefix(c, i, n - 1);
    }
  }

  lemma {:induction false} FlatSize(c: seq<seq<Byte>>, n: nat)
    requires n <= |c|
    ensures |Flat(c, n)| == Size(c, n)
  {
    if n > 0 {
      FlatSize(c, n - 1);
    }
  }
}
