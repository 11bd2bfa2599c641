/**
 Runs of any number of buffers and portals over shared blocks. An operation is what the loops of the
 source do to memory, refs and chains. Whatever is done, every counter is the number of references, no
 block is linked twice, and what the buffers hold is what plain byte sequences would hold.
 */
module Runs {
  import opened Chunks
  import opened Blocks
  import opened RefSteps
  import opened RefRuns
  import opened RefLoops
  import opened Recounts
  import opened TlsBlocks
  import opened Growth
  import opened Appends
  import opened Overwrites
  import opened Portals
  import opened World
  import opened ChainLinks
  import opened Privacy

  datatype Op =
    | NewBuffer
    | NewPortal
    | PopFront(i: nat, n: nat)              // pop_front, cut1 and cutn to memory
    | PopBack(i: nat, n: nat)
    | Clear(i: nat)                         // clear, and popping all there is
    | Move(i: nat, j: nat, n: nat)          // cutn to a buffer, append of a buffer that is given up
    | Take(i: nat, j: nat)                  // the same into an empty buffer
    | ShareTo(i: nat, j: nat, p: nat, n: nat) // append of a buffer, append_to
    | Copy(i: nat, j: nat)                  // operator=
    | Pour(i: nat, rs: seq<Round>, dry: bool) // push_back, append, appendv, resize, reserve
    | AdoptData(i: nat, b: BlockId, data: seq<Byte>) // append_user_data
    | Read(i: nat, k: nat, x: seq<Byte>)    // append_from_reader
    | Return(k: nat)                        // return_cached_blocks
    | Release                               // remove_tls_block_chain
    | Rewrite(i: nat, at: nat, x: seq<Byte>) // unsafe_assign of bytes nobody else refers to

  // ---- What an operation does to memory, refs and chains ----

  predicate HasTls(w: State) {
    w.tls < |w.holders| && w.holders[w.tls].Chain?
  }

  function Tls(w: State): seq<BlockId>
    requires HasTls(w)
  {
    w.holders[w.tls].blocks
  }

  ghost predicate PopFrontDoes(w: State, i: nat, n: nat, v: State) {
    && IsBuffer(w, i) && n <= Total(RefsAt(w, i))
    && var (m, s) := DropFront(w.m, RefsAt(w, i), n); v == After(w, i, m, s)
  }

  ghost predicate PopBackDoes(w: State, i: nat, n: nat, v: State) {
    && IsBuffer(w, i) && n <= Total(RefsAt(w, i))
    && var (m, s) := DropBack(w.m, RefsAt(w, i), n); v == After(w, i, m, s)
  }

  ghost predicate ClearDoes(w: State, i: nat, v: State) {
    IsBuffer(w, i) && v == After(w, i, DropAll(w.m, RefsAt(w, i)), [])
  }

  ghost predicate MoveDoes(w: State, i: nat, j: nat, n: nat, v: State) {
    && IsBuffer(w, i) && IsBuffer(w, j) && i != j && n <= Total(RefsAt(w, i))
    && var (m, s, t) := Carry(w.m, RefsAt(w, i), RefsAt(w, j), n); v == After2(w, i, j, m, s, t)
  }

  ghost predicate TakeDoes(w: State, i: nat, j: nat, v: State) {
    IsBuffer(w, i) && IsBuffer(w, j) && i != j && RefsAt(w, j) == [] && v == After2(w, i, j, w.m, [], RefsAt(w, i))
  }

  ghost predicate ShareDoes(w: State, i: nat, j: nat, p: nat, n: nat, v: State) {
    && IsBuffer(w, i) && IsBuffer(w, j) && i != j && IsBuffer(v, j)
    && v == After2(w, i, j, v.m, RefsAt(w, i), RefsAt(v, j))
    && SharedFrom(w.m, RefsAt(w, i), p, n, RefsAt(w, j), v.m, RefsAt(v, j))
  }

  ghost predicate CopyDoes(w: State, i: nat, j: nat, v: State) {
    && IsBuffer(w, i) && IsBuffer(w, j) && i != j
    && var s := RefsAt(w, i); v == After2(w, i, j, CopyMem(w.m, s, RefsAt(w, j)), s, s)
  }

  function SpotAt(w: State, i: nat): Spot
    requires IsBuffer(w, i) && HasTls(w)
  {
    Spot(w.m, Tls(w), RefsAt(w, i))
  }

  function AfterSpot(w: State, i: nat, p: Spot): State
    requires IsBuffer(w, i) && HasTls(w)
  {
    AfterAppend(w, i, p.m, p.s, p.t)
  }

  ghost predicate PourDoes(w: State, i: nat, rs: seq<Round>, dry: bool, v: State) {
    && IsBuffer(w, i) && HasTls(w) && IsBuffer(v, i) && HasTls(v)
    && v == AfterSpot(w, i, SpotAt(v, i)) && Grown(SpotAt(w, i), rs, dry, SpotAt(v, i))
  }

  ghost predicate AdoptDoes(w: State, i: nat, b: BlockId, data: seq<Byte>, v: State) {
    && IsBuffer(w, i) && HasTls(w) && IsBuffer(v, i) && HasTls(v) && |data| < BLOCK_LIMIT
    && v == AfterSpot(w, i, SpotAt(v, i)) && Adopted(SpotAt(w, i), b, data, SpotAt(v, i))
  }

  ghost predicate ReadDoes(w: State, i: nat, k: nat, x: seq<Byte>, v: State) {
    && IsBuffer(w, i) && IsPortal(w, k) && HasTls(w) && IsBuffer(v, i) && IsPortal(v, k) && HasTls(v)
    && var c, c' := Links(Tls(w), w.holders[k].blocks), Links(Tls(v), v.holders[k].blocks);
       && v == AfterRead(w, i, k, v.m, RefsAt(v, i), Tls(v), v.holders[k].blocks)
       && Appended(w.m, RefsAt(w, i), c, v.m, RefsAt(v, i), c', x)
       && Fit(v.m, RefsAt(v, i), Tls(v), v.holders[k].blocks) && Spares(w.m, c, v.m, c')
  }

  ghost predicate ReturnDoes(w: State, k: nat, v: State) {
    && IsPortal(w, k) && HasTls(w) && HasTls(v)
    && v == AfterLend(w, k, v.m, Tls(v), []) && Returned(w.m, Tls(w), w.holders[k].blocks, v.m, Tls(v))
  }

  ghost predicate ReleaseDoes(w: State, v: State) {
    HasTls(w) && v == w.(m := DropLinks(w.m, Tls(w)), holders := w.holders[w.tls := Chain([])], num := 0)
  }

  ghost predicate RewriteDoes(w: State, i: nat, at: nat, x: seq<Byte>, v: State) {
    Private(w, i, at, |x|) && at + |x| <= |PlacesAt(w, i)| && v == w.(m := Assigned(w, i, at, x))
  }

  ghost predicate Does(w: State, op: Op, v: State) {
    match op
    case NewBuffer => Comes(w, Buffer([]), v)
    case NewPortal => Comes(w, Chain([]), v)
    case PopFront(i, n) => PopFrontDoes(w, i, n, v)
    case PopBack(i, n) => PopBackDoes(w, i, n, v)
    case Clear(i) => ClearDoes(w, i, v)
    case Move(i, j, n) => MoveDoes(w, i, j, n, v)
    case Take(i, j) => TakeDoes(w, i, j, v)
    case ShareTo(i, j, p, n) => ShareDoes(w, i, j, p, n, v)
    case Copy(i, j) => CopyDoes(w, i, j, v)
    case Pour(i, rs, dry) => PourDoes(w, i, rs, dry, v)
    case AdoptData(i, b, data) => AdoptDoes(w, i, b, data, v)
    case Read(i, k, x) => ReadDoes(w, i, k, x, v)
    case Return(k) => ReturnDoes(w, k, v)
    case Release => ReleaseDoes(w, v)
    case Rewrite(i, at, x) => RewriteDoes(w, i, at, x, v)
  }

  // ---- The same on plain byte sequences ----

  function Seen(w: State, i: nat): seq<Byte>
    requires i < |w.holders|
  {
    match w.holders[i]
    case Buffer(s) => Bytes(w.m, s)
    case Chain(_) => []
  }

  function View(w: State): (vs: seq<seq<Byte>>)
    ensures |vs| == |w.holders| && forall i :: 0 <= i < |vs| ==> vs[i] == Seen(w, i)
  {
    seq(|w.holders|, i requires 0 <= i < |w.holders| => Seen(w, i))
  }

  predicate PlainOk(vs: seq<seq<Byte>>, op: Op) {
    match op
    case PopFront(i, n) => i < |vs| && n <= |vs[i]|
    case PopBack(i, n) => i < |vs| && n <= |vs[i]|
    case Clear(i) => i < |vs|
    case Move(i, j, n) => i < |vs| && j < |vs| && i != j && n <= |vs[i]|
    case Take(i, j) => i < |vs| && j < |vs| && i != j && vs[j] == []
    case ShareTo(i, j, _, _) => i < |vs| && j < |vs| && i != j
    case Copy(i, j) => i < |vs| && j < |vs| && i != j
    case Pour(i, _, _) => i < |vs|
    case AdoptData(i, _, _) => i < |vs|
    case Read(i, _, _) => i < |vs|
    case Rewrite(i, at, x) => i < |vs| && at + |x| <= |vs[i]|
    case _ => true
  }

  function Plain(vs: seq<seq<Byte>>, op: Op): seq<seq<Byte>>
    requires PlainOk(vs, op)
  {
    match op
    case NewBuffer => vs + [[]]
    case NewPortal => vs + [[]]
    case PopFront(i, n) => vs[i := vs[i][n..]]
    case PopBack(i, n) => vs[i := vs[i][..|vs[i]| - n]]
    case Clear(i) => vs[i := []]
    case Move(i, j, n) => vs[i := vs[i][n..]][j := vs[j] + vs[i][..n]]
    case Take(i, j) => vs[i := []][j := vs[i]]
    case ShareTo(i, j, p, n) => vs[j := vs[j] + Substr(vs[i], p, n)]
    case Copy(i, j) => vs[j := vs[i]]
    case Pour(i, rs, _) => vs[i := vs[i] + Poured(rs, |rs|)]
    case AdoptData(i, _, data) => vs[i := vs[i] + data]
    case Read(i, _, x) => vs[i := vs[i] + x]
    case Return(_) => vs
    case Release => vs
    case Rewrite(i, at, x) => vs[i := Patched(vs[i], at, x)]
  }

  // ---- What the loops mean ----

  lemma HeldAt(w: State, i: nat)
    requires Counted(w) && IsBuffer(w, i)
    ensures Held(w.m, RefsAt(w, i)) && |Seen(w, i)| == Total(RefsAt(w, i))
  {
    CanAct(w, i);
    HeldLength(w.m, RefsAt(w, i));
  }

  lemma PopFrontMeans(w: State, i: nat, n: nat, v: State)
    requires Counted(w) && PopFrontDoes(w, i, n, v)
    ensures IsBuffer(v, i) && Left(w.m, RefsAt(w, i), v.m, RefsAt(v, i), n, |Seen(w, i)|) && Recounted(w.m, v.m)
  {
    hide Left, Held, Recounted, DropFront, Counted;
    HeldAt(w, i);
    DropFrontLeft(w.m, RefsAt(w, i), n, |Seen(w, i)|);
    DropFrontRecounts(w.m, RefsAt(w, i), n);
  }

  lemma PopBackMeans(w: State, i: nat, n: nat, v: State)
    requires Counted(w) && PopBackDoes(w, i, n, v)
    ensures IsBuffer(v, i) && n <= |Seen(w, i)|
    ensures Left(w.m, RefsAt(w, i), v.m, RefsAt(v, i), 0, |Seen(w, i)| - n) && Recounted(w.m, v.m)
  {
    hide Left, Held, Recounted, DropBack, Counted;
    HeldAt(w, i);
    DropBackLeft(w.m, RefsAt(w, i), n, |Seen(w, i)| - n);
    DropBackRecounts(w.m, RefsAt(w, i), n);
  }

  lemma ClearMeans(w: State, i: nat, v: State)
    requires Counted(w) && ClearDoes(w, i, v)
    ensures IsBuffer(v, i) && Left(w.m, RefsAt(w, i), v.m, RefsAt(v, i), 0, 0) && Recounted(w.m, v.m)
  {
    hide Left, Held, Recounted, DropAll, Counted, Effect;
    HeldAt(w, i);
    DropAllEffect(w.m, RefsAt(w, i));
    NoneLeft(w.m, RefsAt(w, i), v.m, 0);
    DropAllRecounts(w.m, RefsAt(w, i));
  }

  lemma MoveMeans(w: State, i: nat, j: nat, n: nat, v: State)
    requires Counted(w) && MoveDoes(w, i, j, n, v)
    ensures IsBuffer(v, i) && IsBuffer(v, j) && Recounted(w.m, v.m)
    ensures Moved(w.m, RefsAt(w, i), RefsAt(w, j), v.m, RefsAt(v, i), RefsAt(v, j), n)
  {
    hide Moved, Held2, Held, Recounted, Carry, Counted;
    CanActTogether(w, i, j);
    HeldAt(w, i);
    CarryMoved(w.m, RefsAt(w, i), RefsAt(w, j), n);
    CarryRecounts(w.m, RefsAt(w, i), RefsAt(w, j), n);
  }

  lemma TakeMeans(w: State, i: nat, j: nat, v: State)
    requires Counted(w) && TakeDoes(w, i, j, v)
    ensures IsBuffer(v, i) && IsBuffer(v, j) && Recounted(w.m, v.m)
    ensures Moved(w.m, RefsAt(w, i), RefsAt(w, j), v.m, RefsAt(v, i), RefsAt(v, j), |Seen(w, i)|)
  {
    hide Moved, Held, Recounted, Counted;
    HeldAt(w, i);
    SwapMoved(w.m, RefsAt(w, i), |Seen(w, i)|);
    CountRecounts(w.m, NULL);
  }

  lemma ShareMeans(w: State, i: nat, j: nat, p: nat, n: nat, v: State)
    requires Counted(w) && ShareDoes(w, i, j, p, n, v)
    ensures Shared(w.m, RefsAt(w, i), RefsAt(w, j), v.m, RefsAt(v, j), Substr(Bytes(w.m, RefsAt(w, i)), p, n))
    ensures Recounted(w.m, v.m)
  {
    hide Shared, Held2, Recounted, Share, Counted, Substr, Bytes;
    var s, t := RefsAt(w, i), RefsAt(w, j);
    CanActTogether(w, i, j);
    var k: nat, off: nat :|
      && k <= |s| && (k < |s| ==> off < s[k].length) && p == TotalUpto(s, k) + off
      && Share(w.m, s, k, off, n, t).0 == v.m && Share(w.m, s, k, off, n, t).1 == RefsAt(v, j);
    SharedSubstr(w.m, s, k, off, n, t, p, Substr(Bytes(w.m, s), p, n));
    ShareRecounts(w.m, s, k, off, n, t);
  }

  lemma CopyMeans(w: State, i: nat, j: nat, v: State)
    requires Counted(w) && CopyDoes(w, i, j, v)
    ensures var s := RefsAt(w, i);
      && Held2(v.m, s, s) && Effect(w.m, Claims(s) + Claims(RefsAt(w, j)), v.m, Claims(s) + Claims(s))
      && Eq(Bytes(v.m, s), Bytes(w.m, s))
    ensures Recounted(w.m, v.m)
  {
    hide Held2, Held, Recounted, Counted, Bytes, Effect, Shared, IncUpto, DropAll;
    var s, t := RefsAt(w, i), RefsAt(w, j);
    var m1 := DropAll(w.m, t);
    CanActTogether(w, i, j);
    HeldAt(w, j);
    DropAllEffect(w.m, t);
    ClearedBeside(w.m, t, s, m1);
    CopyShared(m1, s);
    AssignEffect(w.m, t, s, m1, v.m);
    DropAllRecounts(w.m, t);
    IncUptoRecounts(m1, s, |s|);
    RecountedTrans(w.m, m1, v.m);
  }

  lemma {:induction false} DropLinksStep(m: Mem, c: multiset<BlockId>, t: seq<BlockId>)
    requires TlsOk(m, c + multiset(t))
    ensures TlsStep(m, c + multiset(t), DropLinks(m, t), c)
    decreases |t|
  {
    hide TlsStep, TlsOk, Blocks.DecRef;
    if t == [] {
      assert c + multiset(t) == c;
      TlsStart(m, c);
    } else {
      HeadClaim(t);
      var m1, d := Blocks.DecRef(m, t[0]), c + multiset(t[1..]);
      assert c + multiset(t) == d + multiset{t[0]};
      TlsDrop(m, d, t[0]);
      TlsStays(m, c + multiset(t), m1, d);
      DropLinksStep(m1, c, t[1..]);
      TlsTrans(m, c + multiset(t), m1, d, DropLinks(m, t), c);
    }
  }

  lemma {:induction false} DropLinksRecounts(m: Mem, t: seq<BlockId>)
    ensures Recounted(m, DropLinks(m, t))
    decreases |t|
  {
    hide Recounted, Blocks.DecRef;
    if t == [] {
      CountRecounts(m, NULL);
    } else {
      CountRecounts(m, t[0]);
      DropLinksRecounts(Blocks.DecRef(m, t[0]), t[1..]);
      RecountedTrans(m, Blocks.DecRef(m, t[0]), DropLinks(m, t));
    }
  }

  lemma LinksOk(w: State, k: nat)
    requires Counted(w) && IsPortal(w, k)
    ensures TlsOk(w.m, Links(Tls(w), w.holders[k].blocks)) && TlsOk(w.m, multiset(Tls(w)))
  {
    Own2(w.holders, w.tls, k);
    CoversOwn(w, [w.tls, k]);
    var c := Links(Tls(w), w.holders[k].blocks);
    CoversLess(w.m, multiset(Tls(w)), multiset(w.holders[k].blocks));
    EffectRefl(w.m, c);
    EffectRefl(w.m, multiset(Tls(w)));
  }

  lemma ReturnMeans(w: State, k: nat, v: State)
    requires Counted(w) && ReturnDoes(w, k, v)
    ensures TlsStep(w.m, Links(Tls(w), w.holders[k].blocks), v.m, Links(Tls(v), []))
  {
    hide TlsStep, TlsOk, DropLinks, Counted;
    LinksOk(w, k);
    var t, ch := Tls(w), w.holders[k].blocks;
    assert Links(Tls(v), []) == multiset(Tls(v));
    if ch != [] && |t| >= MAX_BLOCKS {
      DropLinksStep(w.m, multiset(t), ch);
    } else {
      assert multiset(ch + t) == Links(t, ch);
      TlsStart(w.m, Links(t, ch));
    }
  }

  lemma ReleaseMeans(w: State, v: State)
    requires Counted(w) && ReleaseDoes(w, v)
    ensures TlsStep(w.m, multiset(Tls(w)), v.m, multiset{}) && Recounted(w.m, v.m)
  {
    Own1(w.holders, w.tls);
    CoversOwn(w, [w.tls]);
    EffectRefl(w.m, multiset(Tls(w)));
    assert multiset{} + multiset(Tls(w)) == multiset(Tls(w));
    DropLinksStep(w.m, multiset{}, Tls(w));
    DropLinksRecounts(w.m, Tls(w));
  }

  lemma SpotReady(w: State, i: nat)
    requires Counted(w) && IsBuffer(w, i)
    ensures HasTls(w) && ReadyAt(SpotAt(w, i))
  {
    World.CanAppend(w, i);
  }

  lemma PourMeans(w: State, i: nat, rs: seq<Round>, dry: bool, v: State)
    requires Counted(w) && PourDoes(w, i, rs, dry, v)
    ensures AppendedAt(SpotAt(w, i), SpotAt(v, i), Poured(rs, |rs|))
    ensures Spares(w.m, multiset(Tls(w)), v.m, multiset(Tls(v)))
      && (Single(multiset(Tls(w))) ==> Single(multiset(Tls(v))))
  {
    hide Counted, ReadyAt, Grown, Appended, Spares, Single;
    SpotReady(w, i);
    GrownAppends(SpotAt(w, i), rs, dry, SpotAt(v, i));
    GrownSpares(SpotAt(w, i), rs, dry, SpotAt(v, i));
  }

  lemma AdoptMeans(w: State, i: nat, b: BlockId, data: seq<Byte>, v: State)
    requires Counted(w) && AdoptDoes(w, i, b, data, v)
    ensures AppendedAt(SpotAt(w, i), SpotAt(v, i), data)
    ensures Spares(w.m, multiset(Tls(w)), v.m, multiset(Tls(v))) && Tls(v) == Tls(w)
  {
    hide Counted, ReadyAt, Adopted, Appended, Spares;
    SpotReady(w, i);
    AdoptedAppends(SpotAt(w, i), b, data, SpotAt(v, i));
    AdoptedSpares(SpotAt(w, i), b, data, SpotAt(v, i));
  }

  // ---- Every operation keeps the counters ----

  /** The holders that act in an operation. */
  function Who(w: State, op: Op): seq<nat> {
    match op
    case NewBuffer => []
    case NewPortal => []
    case PopFront(i, _) => [i]
    case PopBack(i, _) => [i]
    case Clear(i) => [i]
    case Move(i, j, _) => [i, j]
    case Take(i, j) => [i, j]
    case ShareTo(i, j, _, _) => [i, j]
    case Copy(i, j) => [i, j]
    case Pour(i, _, _) => [i, w.tls]
    case AdoptData(i, _, _) => [i, w.tls]
    case Read(i, k, _) => [i, w.tls, k]
    case Return(k) => [w.tls, k]
    case Release => [w.tls]
    case Rewrite(i, _, _) => [i]
  }

  lemma CopyActs(w: State, i: nat, j: nat, v: State)
    requires Counted(w) && CopyDoes(w, i, j, v)
    ensures Acts(w, [i, j], v)
  {
    hide Counted, Acts, Effect, Claims, RefsOk, Held2;
    CopyMeans(w, i, j, v);
    var s := RefsAt(w, i);
    HeldRefs(v.m, s);
    TlsStays2(w, i, j);
    TwoAct(w, i, j, v, Buffer(s), Buffer(s));
  }

  lemma HeldRefs(m: Mem, s: seq<BlockRef>)
    requires Held2(m, s, s)
    ensures RefsOk(m, s)
  {
  }

  lemma ReleaseActs(w: State, v: State)
    requires Counted(w) && ReleaseDoes(w, v)
    ensures Acts(w, [w.tls], v)
  {
    hide Counted, DropLinks;
    ReleaseMeans(w, v);
    Own1(w.holders, w.tls);
    Own1(v.holders, w.tls);
    assert HolderClaims(v.holders[w.tls]) == multiset{};
  }

  lemma DropActs(w: State, op: Op, v: State)
    requires Counted(w) && Does(w, op, v) && (op.PopFront? || op.PopBack? || op.Clear?)
    ensures Acts(w, Who(w, op), v) && Recounted(w.m, v.m)
  {
    hide Counted, Acts, Left, Recounted, DropFront, DropBack, DropAll;
    match op
    case PopFront(i, n) =>
      PopFrontMeans(w, i, n, v);
      LeftActs(w, i, v.m, RefsAt(v, i), n, |Seen(w, i)|);
    case PopBack(i, n) =>
      PopBackMeans(w, i, n, v);
      LeftActs(w, i, v.m, RefsAt(v, i), 0, |Seen(w, i)| - n);
    case Clear(i) =>
      ClearMeans(w, i, v);
      LeftActs(w, i, v.m, RefsAt(v, i), 0, 0);
  }

  lemma MoveActs(w: State, op: Op, v: State)
    requires Counted(w) && Does(w, op, v) && (op.Move? || op.Take? || op.ShareTo? || op.Copy?)
    ensures Acts(w, Who(w, op), v) && Recounted(w.m, v.m)
  {
    hide Counted, Acts, Moved, Shared, Recounted, Carry, CopyDoes, Substr;
    match op
    case Move(i, j, n) =>
      MoveMeans(w, i, j, n, v);
      MovedActs(w, i, j, v.m, RefsAt(v, i), RefsAt(v, j), n);
    case Take(i, j) =>
      TakeMeans(w, i, j, v);
      MovedActs(w, i, j, v.m, RefsAt(v, i), RefsAt(v, j), |Seen(w, i)|);
    case ShareTo(i, j, p, n) =>
      ShareMeans(w, i, j, p, n, v);
      SharedActs(w, i, j, v.m, RefsAt(v, j), Substr(Bytes(w.m, RefsAt(w, i)), p, n));
    case Copy(i, j) =>
      CopyMeans(w, i, j, v);
      CopyActs(w, i, j, v);
  }

  lemma GrowActs(w: State, op: Op, v: State)
    requires Counted(w) && Does(w, op, v) && (op.Pour? || op.AdoptData? || op.Read? || op.Return? || op.Release?)
    ensures Acts(w, Who(w, op), v)
  {
    hide Counted, Acts, Appended, TlsStep, Spares, Single, Grown, Adopted, Returned, ReleaseDoes, Fit;
    match op
    case Pour(i, rs, dry) =>
      PourMeans(w, i, rs, dry, v);
      AppendedActs(w, i, v.m, RefsAt(v, i), Tls(v), Poured(rs, |rs|));
    case AdoptData(i, b, data) =>
      AdoptMeans(w, i, b, data, v);
      AppendedActs(w, i, v.m, RefsAt(v, i), Tls(v), data);
    case Read(i, k, x) => PortalActs(w, i, k, v.m, RefsAt(v, i), Tls(v), v.holders[k].blocks, x);
    case Return(k) =>
      ReturnMeans(w, k, v);
      ChainActs(w, k, v.m, Tls(v), []);
    case Release => ReleaseActs(w, v);
  }

  lemma DoesActs(w: State, op: Op, v: State)
    requires Counted(w) && Does(w, op, v) && !op.NewBuffer? && !op.NewPortal? && !op.Rewrite?
    ensures Acts(w, Who(w, op), v)
  {
    hide Counted, Acts, Does, Who, Recounted;
    match op
    case PopFront(_, _) => DropActs(w, op, v);
    case PopBack(_, _) => DropActs(w, op, v);
    case Clear(_) => DropActs(w, op, v);
    case Move(_, _, _) => MoveActs(w, op, v);
    case Take(_, _) => MoveActs(w, op, v);
    case ShareTo(_, _, _, _) => MoveActs(w, op, v);
    case Copy(_, _) => MoveActs(w, op, v);
    case _ => GrowActs(w, op, v);
  }

  // ---- Every operation keeps the chains in order ----

  lemma RecountedCalm(m: Mem, m': Mem)
    requires Recounted(m, m')
    ensures Calm(m, multiset{}, m', multiset{})
  {
  }

  lemma SparesCalm(m: Mem, c: multiset<BlockId>, m': Mem, c': multiset<BlockId>)
    requires Spares(m, c, m', c')
    ensures Calm(m, c, m', c')
  {
  }

  /** Operations on buffers only: no chain is touched. */
  lemma {:induction false} NoLinks(hs: seq<Holder>, who: seq<nat>, k: nat)
    requires k <= |who| && World.Distinct(who, |hs|) && forall l :: 0 <= l < |who| ==> hs[who[l]].Buffer?
    ensures OwnUpto(ChainsOf(hs), who, k) == multiset{}
  {
    if k > 0 {
      NoLinks(hs, who, k - 1);
      NoClaims();
      assert ChainsOf(hs)[who[k - 1]] == Buffer([]);
    }
  }

  lemma ToAround(w: State, who: seq<nat>, v: State, c: multiset<BlockId>, c': multiset<BlockId>)
    requires Acts(w, who, v)
    requires World.Distinct(who, |w.holders|) && World.Distinct(who, |v.holders|)
    requires Own(ChainsOf(w.holders), who) == c && Own(ChainsOf(v.holders), who) == c'
    requires Single(c') && Calm(w.m, c, v.m, c')
    requires forall k: nat :: k in who && IsPortal(v, k) ==> Roomy(v.m, v.holders[k].blocks)
    ensures Around(w, who, v)
  {
    hide Acts, Own, Single, Calm, Roomy, ChainsOf;
    ActsIs(w, who, v);
  }

  lemma BuffersAround(w: State, who: seq<nat>, v: State)
    requires Acts(w, who, v) && Recounted(w.m, v.m)
    requires forall l :: 0 <= l < |who| && who[l] < |w.holders| && who[l] < |v.holders| ==>
      w.holders[who[l]].Buffer? && v.holders[who[l]].Buffer?
    ensures Around(w, who, v)
  {
    hide Acts, OwnUpto, Calm, Roomy, ChainsOf, Recounted, Around;
    ActsIs(w, who, v);
    NoLinks(w.holders, who, |who|);
    NoLinks(v.holders, who, |who|);
    RecountedCalm(w.m, v.m);
    ToAround(w, who, v, multiset{}, multiset{});
  }

  lemma ActsIs(w: State, who: seq<nat>, v: State)
    requires Acts(w, who, v)
    ensures |v.holders| == |w.holders| && World.Distinct(who, |w.holders|) && v.tls == w.tls && TlsFits(v)
    ensures forall i :: 0 <= i < |w.holders| && i !in who ==> v.holders[i] == w.holders[i]
  {
  }

  lemma DropAround(w: State, op: Op, v: State)
    requires Counted(w) && Does(w, op, v) && (op.PopFront? || op.PopBack? || op.Clear?)
    ensures Around(w, Who(w, op), v)
  {
    hide Counted, Acts, Around, Recounted, DropFront, DropBack, DropAll;
    DropActs(w, op, v);
    ActsIs(w, Who(w, op), v);
    BuffersAround(w, Who(w, op), v);
  }

  lemma MoveAround(w: State, op: Op, v: State)
    requires Counted(w) && Does(w, op, v) && (op.Move? || op.Take? || op.ShareTo? || op.Copy?)
    ensures Around(w, Who(w, op), v)
  {
    hide Counted, Acts, Around, Recounted, Carry, SharedFrom, CopyMem;
    MoveActs(w, op, v);
    ActsIs(w, Who(w, op), v);
    BuffersAround(w, Who(w, op), v);
  }

  lemma TlsLinks(hs: seq<Holder>, i: nat, t: nat)
    requires i < |hs| && t < |hs| && i != t && hs[i].Buffer? && hs[t].Chain?
    ensures World.Distinct([i, t], |hs|) && Own(ChainsOf(hs), [i, t]) == multiset(hs[t].blocks)
  {
    Own2(ChainsOf(hs), i, t);
    NoClaims();
    assert ChainsOf(hs)[i] == Buffer([]) && ChainsOf(hs)[t] == hs[t];
  }

  lemma PortalLinks(hs: seq<Holder>, i: nat, t: nat, k: nat)
    requires i < |hs| && t < |hs| && k < |hs| && i != t && i != k && t != k
    requires hs[i].Buffer? && hs[t].Chain? && hs[k].Chain?
    ensures World.Distinct([i, t, k], |hs|) && Own(ChainsOf(hs), [i, t, k]) == Links(hs[t].blocks, hs[k].blocks)
  {
    Own3(ChainsOf(hs), i, t, k);
    NoClaims();
    assert ChainsOf(hs)[i] == Buffer([]) && ChainsOf(hs)[t] == hs[t] && ChainsOf(hs)[k] == hs[k];
    assert multiset{} + Links(hs[t].blocks, hs[k].blocks) == Links(hs[t].blocks, hs[k].blocks);
  }

  lemma SingleTls(w: State)
    requires Ok(w)
    ensures HasTls(w) && TlsFits(w) && Single(multiset(Tls(w)))
  {
    var hs := ChainsOf(w.holders);
    Own1(hs, w.tls);
    AllSplit(hs, [w.tls], 1);
    assert Single(All(hs));
    SingleLess(multiset(Tls(w)), All(hs));
  }

  /** Appending touches no chain but the thread-local one. */
  lemma TlsAround(w: State, i: nat, v: State)
    requires Acts(w, [i, w.tls], v) && IsBuffer(w, i) && IsBuffer(v, i) && HasTls(w) && HasTls(v)
    requires Spares(w.m, multiset(Tls(w)), v.m, multiset(Tls(v))) && Single(multiset(Tls(v)))
    ensures Around(w, [i, w.tls], v)
  {
    hide Spares, Single, Calm, Own, ChainsOf;
    ActsIs(w, [i, w.tls], v);
    TlsLinks(w.holders, i, w.tls);
    TlsLinks(v.holders, i, w.tls);
    SparesCalm(w.m, multiset(Tls(w)), v.m, multiset(Tls(v)));
  }

  lemma PortalAround(w: State, i: nat, k: nat, v: State)
    requires Acts(w, [i, w.tls, k], v) && IsBuffer(w, i) && IsBuffer(v, i) && HasTls(w) && HasTls(v) && IsPortal(w, k)
      && IsPortal(v, k)
    requires var c, c' := Links(Tls(w), w.holders[k].blocks), Links(Tls(v), v.holders[k].blocks);
      Spares(w.m, c, v.m, c') && Single(c') && Roomy(v.m, v.holders[k].blocks)
    ensures Around(w, [i, w.tls, k], v)
  {
    hide Spares, Single, Calm, Own, ChainsOf, Roomy;
    ActsIs(w, [i, w.tls, k], v);
    PortalLinks(w.holders, i, w.tls, k);
    PortalLinks(v.holders, i, w.tls, k);
    SparesCalm(w.m, Links(Tls(w), w.holders[k].blocks), v.m, Links(Tls(v), v.holders[k].blocks));
  }

  lemma ReturnAround(w: State, k: nat, v: State)
    requires Ok(w) && ReturnDoes(w, k, v) && Acts(w, [w.tls, k], v)
    ensures Around(w, [w.tls, k], v)
  {
    hide Spares, Single, Calm, OwnUpto, Returned, Counted, ChainsOk, Around, Acts, Own;
    var c, c' := Links(Tls(w), w.holders[k].blocks), Links(Tls(v), []);
    ActsIs(w, [w.tls, k], v);
    SingleTls(w);
    TwoLinks(w, k);
    ReturnedSpares(w.m, Tls(w), w.holders[k].blocks, v.m, Tls(v));
    SingleLess(c', c);
    SparesCalm(w.m, c, v.m, c');
    Own2(ChainsOf(w.holders), w.tls, k);
    Own2(ChainsOf(v.holders), w.tls, k);
    NoRoomNeeded(v.m);
    ToAround(w, [w.tls, k], v, c, c');
  }

  lemma NoRoomNeeded(m: Mem)
    ensures Roomy(m, [])
  {
  }

  lemma ReleaseAround(w: State, v: State)
    requires Ok(w) && ReleaseDoes(w, v) && Acts(w, [w.tls], v)
    ensures Around(w, [w.tls], v)
  {
    hide Counted, DropLinks;
    ReleaseMeans(w, v);
    ActsIs(w, [w.tls], v);
    Own1(ChainsOf(w.holders), w.tls);
    Own1(ChainsOf(v.holders), w.tls);
    assert HolderClaims(ChainsOf(v.holders)[w.tls]) == multiset{};
    RecountedCalm(w.m, v.m);
  }

  lemma GrowAround(w: State, op: Op, v: State)
    requires Ok(w) && Does(w, op, v) && (op.Pour? || op.AdoptData? || op.Read? || op.Return? || op.Release?)
    ensures Around(w, Who(w, op), v)
  {
    hide Counted, ChainsOk, Acts, Around, Appended, Spares, Single, Grown, Adopted, Returned, ReleaseDoes, Fit, Roomy;
    GrowActs(w, op, v);
    match op
    case Pour(i, rs, dry) =>
      PourMeans(w, i, rs, dry, v);
      SingleTls(w);
      TlsAround(w, i, v);
    case AdoptData(i, b, data) =>
      AdoptMeans(w, i, b, data, v);
      SingleTls(w);
      TlsAround(w, i, v);
    case Read(i, k, x) =>
      FitIs(v.m, RefsAt(v, i), Tls(v), v.holders[k].blocks);
      PortalAround(w, i, k, v);
    case Return(k) => ReturnAround(w, k, v);
    case Release => ReleaseAround(w, v);
  }

  lemma DoesAround(w: State, op: Op, v: State)
    requires Ok(w) && Does(w, op, v) && !op.NewBuffer? && !op.NewPortal? && !op.Rewrite?
    ensures Around(w, Who(w, op), v)
  {
    hide Counted, ChainsOk, Around, Does, Who;
    match op
    case PopFront(_, _) => DropAround(w, op, v);
    case PopBack(_, _) => DropAround(w, op, v);
    case Clear(_) => DropAround(w, op, v);
    case Move(_, _, _) => MoveAround(w, op, v);
    case Take(_, _) => MoveAround(w, op, v);
    case ShareTo(_, _, _, _) => MoveAround(w, op, v);
    case Copy(_, _) => MoveAround(w, op, v);
    case _ => GrowAround(w, op, v);
  }

  lemma ComesOk(w: State, x: Holder, v: State)
    requires Ok(w) && Comes(w, x, v)
    ensures Ok(v)
  {
    ComesKeeps(w, x, v);
    var n := |w.holders|;
    assert ChainsOf(v.holders) == ChainsOf(w.holders) + [ChainPart(x)];
    AllGrow(ChainsOf(w.holders), ChainPart(x), n);
    assert HolderClaims(ChainPart(x)) == multiset{};
    assert All(ChainsOf(v.holders)) == All(ChainsOf(w.holders));
    forall k: nat | IsPortal(v, k)
      ensures Roomy(v.m, v.holders[k].blocks)
    {
      assert k < n ==> IsPortal(w, k);
    }
  }

  /** Every operation keeps the counters right and the chains in order. */
  lemma DoesKeeps(w: State, op: Op, v: State)
    requires Ok(w) && Does(w, op, v)
    ensures Ok(v)
  {
    hide Counted, ChainsOk, Acts, Comes, Around, Private, Assigned;
    match op
    case NewBuffer => ComesOk(w, Buffer([]), v);
    case NewPortal => ComesOk(w, Chain([]), v);
    case Rewrite(i, at, x) =>
      PrivateIs(w, i, at, |x|, i);
      AssignedOk(w, i, at, x);
    case _ =>
      DoesActs(w, op, v);
      ActsKeeps(w, Who(w, op), v);
      DoesAround(w, op, v);
      KeepsChains(w, Who(w, op), v);
  }
}
