/** Runs over shared blocks are, in what the buffers hold, runs on plain byte sequences. */
module Refinement {
  import opened Chunks
  import opened Blocks
  import opened RefSteps
  import opened RefRuns
  import opened Recounts
  import opened TlsBlocks
  import opened Growth
  import opened Appends
  import opened Overwrites
  import opened Portals
  import opened World
  import opened ChainLinks
  import opened Privacy
  import opened Runs

  // ---- What the acting buffers see ----

  lemma PopFrontSees(w: State, i: nat, n: nat, v: State)
    requires Counted(w) && PopFrontDoes(w, i, n, v)
    ensures n <= |Seen(w, i)| && IsBuffer(v, i) && Seen(v, i) == Seen(w, i)[n..]
  {
    hide Counted, DropFront, Bytes, Held, Effect, Claims, Recounted;
    PopFrontMeans(w, i, n, v);
  }

  lemma PopBackSees(w: State, i: nat, n: nat, v: State)
    requires Counted(w) && PopBackDoes(w, i, n, v)
    ensures n <= |Seen(w, i)| && IsBuffer(v, i) && Seen(v, i) == Seen(w, i)[..|Seen(w, i)| - n]
  {
    hide Counted, DropBack, Bytes, Held, Effect, Claims, Recounted;
    PopBackMeans(w, i, n, v);
  }

  lemma ClearSees(w: State, i: nat, v: State)
    requires Counted(w) && ClearDoes(w, i, v)
    ensures IsBuffer(v, i) && Seen(v, i) == []
  {
    hide Counted, DropAll, Bytes, Held, Effect, Claims, Recounted;
    ClearMeans(w, i, v);
  }

  lemma MoveSees(w: State, i: nat, j: nat, n: nat, v: State)
    requires Counted(w) && MoveDoes(w, i, j, n, v)
    ensures n <= |Seen(w, i)| && IsBuffer(v, i) && IsBuffer(v, j)
    ensures Seen(v, i) == Seen(w, i)[n..] && Seen(v, j) == Seen(w, j) + Seen(w, i)[..n]
  {
    hide Counted, Carry, Bytes, Held2, Effect, Claims, Recounted;
    MoveMeans(w, i, j, n, v);
  }

  lemma TakeSees(w: State, i: nat, j: nat, v: State)
    requires Counted(w) && TakeDoes(w, i, j, v)
    ensures IsBuffer(v, i) && IsBuffer(v, j) && Seen(w, j) == [] && Seen(v, i) == [] && Seen(v, j) == Seen(w, i)
  {
  }

  lemma ShareSees(w: State, i: nat, j: nat, p: nat, n: nat, v: State)
    requires Counted(w) && ShareDoes(w, i, j, p, n, v)
    ensures IsBuffer(v, i) && Seen(v, i) == Seen(w, i) && Seen(v, j) == Seen(w, j) + Substr(Seen(w, i), p, n)
  {
    hide Counted, SharedFrom, Bytes, Held2, Effect, Claims, Recounted, Substr;
    ShareMeans(w, i, j, p, n, v);
  }

  lemma CopySees(w: State, i: nat, j: nat, v: State)
    requires Counted(w) && CopyDoes(w, i, j, v)
    ensures IsBuffer(v, i) && IsBuffer(v, j) && Seen(v, i) == Seen(w, i) == Seen(v, j)
  {
    hide Counted, CopyMem, Bytes, Held2, Effect, Claims, Recounted;
    CopyMeans(w, i, j, v);
  }

  lemma PourSees(w: State, i: nat, rs: seq<Round>, dry: bool, v: State)
    requires Counted(w) && PourDoes(w, i, rs, dry, v)
    ensures Seen(v, i) == Seen(w, i) + Poured(rs, |rs|)
  {
    hide Counted, Grown, Bytes, Ready, Effect, Claims, Spares, Single;
    PourMeans(w, i, rs, dry, v);
  }

  lemma AdoptSees(w: State, i: nat, b: BlockId, data: seq<Byte>, v: State)
    requires Counted(w) && AdoptDoes(w, i, b, data, v)
    ensures Seen(v, i) == Seen(w, i) + data
  {
    hide Counted, Adopted, Bytes, Ready, Effect, Claims, Spares;
    AdoptMeans(w, i, b, data, v);
  }

  lemma ReadSees(w: State, i: nat, k: nat, x: seq<Byte>, v: State)
    requires ReadDoes(w, i, k, x, v)
    ensures Seen(v, i) == Seen(w, i) + x
  {
    hide Bytes, Ready, Effect, Claims, Spares, Fit;
  }

  lemma RewriteSees(w: State, i: nat, at: nat, x: seq<Byte>, v: State)
    requires Counted(w) && RewriteDoes(w, i, at, x, v)
    ensures IsBuffer(w, i) && IsBuffer(v, i) && at + |x| <= |Seen(w, i)| && Seen(v, i) == Patched(Seen(w, i), at, x)
  {
    hide Counted, Private, Bytes, Patched, Overwrite;
    PrivateIs(w, i, at, |x|, i);
    AssignedOwn(w, i, at, x);
  }

  // ---- What the others see ----

  lemma RewriteOthers(w: State, i: nat, at: nat, x: seq<Byte>, v: State, k: nat)
    requires Counted(w) && RewriteDoes(w, i, at, x, v) && k < |w.holders| && k != i
    ensures k < |v.holders| && Seen(v, k) == Seen(w, k)
  {
    hide Counted, Private, Bytes, Overwrite;
    PrivateIs(w, i, at, |x|, i);
    if IsBuffer(w, k) {
      AssignedOthers(w, i, at, x, k);
    }
  }

  lemma OthersSee(w: State, op: Op, v: State, k: nat)
    requires Counted(w) && Does(w, op, v) && !op.NewBuffer? && !op.NewPortal? && k < |w.holders| && k !in Who(w, op)
    ensures k < |v.holders| && Seen(v, k) == Seen(w, k)
  {
    hide Counted, Who, Acts, Bytes;
    if op.Rewrite? {
      WhoRewrites(w, op);
      RewriteOthers(w, op.i, op.at, op.x, v, k);
    } else {
      DoesActs(w, op, v);
      ActsIs(w, Who(w, op), v);
      BystanderKept(w, Who(w, op), v, k);
    }
  }

  lemma WhoRewrites(w: State, op: Op)
    requires op.Rewrite?
    ensures Who(w, op) == [op.i]
  {
  }

  lemma ChainSees(w: State, v: State, k: nat)
    requires k < |w.holders| && k < |v.holders| && w.holders[k].Chain? && v.holders[k].Chain?
    ensures Seen(v, k) == Seen(w, k)
  {
  }

  lemma ComesSees(w: State, x: Holder, v: State, k: nat)
    requires Comes(w, x, v) && k <= |w.holders|
    ensures k < |v.holders| && Seen(v, k) == if k < |w.holders| then Seen(w, k) else []
  {
  }

  // ---- One operation ----

  /** The plain operation can be done, on as many sequences as there are holders. */
  lemma DoesLength(w: State, op: Op, v: State)
    requires Counted(w) && Does(w, op, v)
    ensures |v.holders| == |w.holders| + (if op.NewBuffer? || op.NewPortal? then 1 else 0)
    ensures PlainOk(View(w), op) && |Plain(View(w), op)| == |v.holders|
  {
    hide Counted, Seen, DropFront, DropBack, DropAll, Carry, SharedFrom, CopyMem, Grown, Adopted, Appended, Spares,
      Fit, Returned,
      DropLinks, Private, Assigned, Poured, Patched, Substr;
    match op
    case PopFront(i, n) => PopFrontSees(w, i, n, v);
    case PopBack(i, n) => PopBackSees(w, i, n, v);
    case Move(i, j, n) => MoveSees(w, i, j, n, v);
    case Take(i, j) => TakeSees(w, i, j, v);
    case Rewrite(i, at, x) => RewriteSees(w, i, at, x, v);
    case _ =>
  }

  lemma DropView(w: State, op: Op, v: State, k: nat)
    requires Counted(w) && Does(w, op, v) && (op.PopFront? || op.PopBack? || op.Clear? || op.Rewrite?)
      && k < |w.holders|
    ensures PlainOk(View(w), op) && |Plain(View(w), op)| == |w.holders| && k < |v.holders|
    ensures Seen(v, k) == Plain(View(w), op)[k]
  {
    hide Counted, Seen, PopFrontDoes, PopBackDoes, ClearDoes, RewriteDoes, Patched;
    DoesLength(w, op, v);
    if k !in Who(w, op) {
      OthersSee(w, op, v, k);
    }
    match op
    case PopFront(i, n) => PopFrontSees(w, i, n, v);
    case PopBack(i, n) => PopBackSees(w, i, n, v);
    case Clear(i) => ClearSees(w, i, v);
    case Rewrite(i, at, x) => RewriteSees(w, i, at, x, v);
  }

  lemma MoveView(w: State, op: Op, v: State, k: nat)
    requires Counted(w) && Does(w, op, v) && (op.Move? || op.Take? || op.ShareTo? || op.Copy?) && k < |w.holders|
    ensures PlainOk(View(w), op) && |Plain(View(w), op)| == |w.holders| && k < |v.holders|
    ensures Seen(v, k) == Plain(View(w), op)[k]
  {
    hide Counted, Seen, MoveDoes, TakeDoes, ShareDoes, CopyDoes, Substr;
    DoesLength(w, op, v);
    if k !in Who(w, op) {
      OthersSee(w, op, v, k);
    }
    match op
    case Move(i, j, n) => MoveSees(w, i, j, n, v);
    case Take(i, j) => TakeSees(w, i, j, v);
    case ShareTo(i, j, p, n) => ShareSees(w, i, j, p, n, v);
    case Copy(i, j) => CopySees(w, i, j, v);
  }

  lemma GrowView(w: State, op: Op, v: State, k: nat)
    requires Counted(w) && Does(w, op, v) && (op.Pour? || op.AdoptData? || op.Read? || op.Return? || op.Release?)
    requires k < |w.holders|
    ensures PlainOk(View(w), op) && |Plain(View(w), op)| == |w.holders| && k < |v.holders|
    ensures Seen(v, k) == Plain(View(w), op)[k]
  {
    hide Counted, Seen, Grown, Adopted, Appended, Spares, Fit, Returned, DropLinks, Poured;
    DoesLength(w, op, v);
    if k !in Who(w, op) {
      OthersSee(w, op, v, k);
    } else if w.holders[k].Chain? {
      ChainSees(w, v, k);
    }
    match op
    case Pour(i, rs, dry) => PourSees(w, i, rs, dry, v);
    case AdoptData(i, b, data) => AdoptSees(w, i, b, data, v);
    case Read(i, l, x) => ReadSees(w, i, l, x, v);
    case _ =>
  }

  lemma ComesView(w: State, op: Op, v: State, k: nat)
    requires Counted(w) && Does(w, op, v) && (op.NewBuffer? || op.NewPortal?) && k <= |w.holders|
    ensures PlainOk(View(w), op) && |Plain(View(w), op)| == |w.holders| + 1 && k < |v.holders|
    ensures Seen(v, k) == Plain(View(w), op)[k]
  {
    hide Counted, Seen, Comes;
    match op
    case NewBuffer => ComesSees(w, Buffer([]), v, k);
    case NewPortal => ComesSees(w, Chain([]), v, k);
  }

  /** What a holder sees after an operation is what the plain operation says. */
  lemma DoesSees(w: State, op: Op, v: State, k: nat)
    requires Counted(w) && Does(w, op, v) && k < |v.holders| && PlainOk(View(w), op)
      && |Plain(View(w), op)| == |v.holders|
    ensures Seen(v, k) == Plain(View(w), op)[k]
  {
    hide Counted, Does, Seen, Plain, PlainOk;
    DoesLength(w, op, v);
    match op
    case NewBuffer => ComesView(w, op, v, k);
    case NewPortal => ComesView(w, op, v, k);
    case PopFront(_, _) => DropView(w, op, v, k);
    case PopBack(_, _) => DropView(w, op, v, k);
    case Clear(_) => DropView(w, op, v, k);
    case Rewrite(_, _, _) => DropView(w, op, v, k);
    case Move(_, _, _) => MoveView(w, op, v, k);
    case Take(_, _) => MoveView(w, op, v, k);
    case ShareTo(_, _, _, _) => MoveView(w, op, v, k);
    case Copy(_, _) => MoveView(w, op, v, k);
    case _ => GrowView(w, op, v, k);
  }

  /** Every operation on buffers that share blocks is the operation on plain byte sequences. */
  lemma DoesRefines(w: State, op: Op, v: State)
    requires Counted(w) && Does(w, op, v)
    ensures PlainOk(View(w), op) && View(v) == Plain(View(w), op)
  {
    hide Counted, Does, Plain, Seen;
    DoesLength(w, op, v);
    forall k | 0 <= k < |v.holders|
      ensures View(v)[k] == Plain(View(w), op)[k]
    {
      DoesSees(w, op, v, k);
    }
  }

  // ---- Runs ----

  ghost predicate DoesAt(ws: seq<State>, ops: seq<Op>, k: nat) {
    k + 1 < |ws| && k < |ops| ==> Does(ws[k], ops[k], ws[k + 1])
  }

  /** A run from the state in which there is nothing but an empty thread-local chain. */
  ghost predicate IsRun(ws: seq<State>, ops: seq<Op>) {
    |ws| == |ops| + 1 && Init(ws[0]) && forall k: nat :: DoesAt(ws, ops, k)
  }

  lemma InitOk(w: State)
    requires Init(w)
    ensures Ok(w)
  {
    InitCounted(w);
    assert ChainsOf(w.holders) == [Chain([])];
    assert AllUpto(ChainsOf(w.holders), 0) == multiset{};
    assert HolderClaims(Chain([])) == multiset{};
    assert All(ChainsOf(w.holders)) == multiset{};
  }

  /** In every reachable state every counter is the number of references, and the chains are in order. */
  lemma {:induction false} RunKeeps(ws: seq<State>, ops: seq<Op>, k: nat)
    requires IsRun(ws, ops) && k < |ws|
    ensures Ok(ws[k])
  {
    hide Ok, Does, Init;
    if k == 0 {
      InitOk(ws[0]);
    } else {
      RunKeeps(ws, ops, k - 1);
      assert DoesAt(ws, ops, k - 1);
      DoesKeeps(ws[k - 1], ops[k - 1], ws[k]);
    }
  }

  /** A run of the plain operations, given by what it goes through. */
  ghost predicate IsPlainRun(vss: seq<seq<seq<Byte>>>, ops: seq<Op>) {
    && |vss| == |ops| + 1 && vss[0] == [[]]
    && forall k :: 0 <= k < |ops| ==> PlainOk(vss[k], ops[k]) && vss[k + 1] == Plain(vss[k], ops[k])
  }

  /** Every run is, in what the buffers hold, a run on plain byte sequences. */
  lemma RunRefines(ws: seq<State>, ops: seq<Op>)
    requires IsRun(ws, ops)
    ensures IsPlainRun(seq(|ws|, k requires 0 <= k < |ws| => View(ws[k])), ops)
  {
    hide Counted, ChainsOk, Does, Plain, PlainOk, Init, View;
    InitSees(ws[0]);
    forall k | 0 <= k < |ops|
      ensures PlainOk(View(ws[k]), ops[k]) && View(ws[k + 1]) == Plain(View(ws[k]), ops[k])
    {
      RunKeeps(ws, ops, k);
      assert DoesAt(ws, ops, k);
      DoesRefines(ws[k], ops[k], ws[k + 1]);
    }
  }

  lemma InitSees(w: State)
    requires Init(w)
    ensures View(w) == [[]]
  {
  }

  // ---- What one buffer does beside the others ----

  /** Nobody but the buffer `i` sees a change. */
  ghost predicate Beside(w: State, i: nat, v: State) {
    i < |w.holders| == |v.holders| && forall k :: 0 <= k < |w.holders| && k != i ==> Seen(v, k) == Seen(w, k)
  }

  lemma BesideTrans(w: State, i: nat, u: State, v: State)
    requires Beside(w, i, u) && Beside(u, i, v)
    ensures Beside(w, i, v)
  {
  }

  lemma ViewBeside(w: State, i: nat, v: State, x: seq<Byte>)
    requires i < |w.holders| && View(v) == View(w)[i := x]
    ensures Beside(w, i, v) && Seen(v, i) == x
  {
    assert forall k :: 0 <= k < |w.holders| ==> View(v)[k] == Seen(v, k) && View(w)[k] == Seen(w, k);
  }

  /** pop_front: `n` bytes, or all there are. */
  lemma FrontBeside(w: State, i: nat, n: nat, v: State)
    requires Counted(w) && IsBuffer(w, i) && n <= |Seen(w, i)|
    requires Does(w, if n < |Seen(w, i)| then PopFront(i, n) else Clear(i), v)
    ensures Beside(w, i, v) && Seen(v, i) == Seen(w, i)[n..]
  {
    hide Counted, DropFront, DropAll, Seen;
    DoesRefines(w, if n < |Seen(w, i)| then PopFront(i, n) else Clear(i), v);
    assert n == |Seen(w, i)| ==> Seen(w, i)[n..] == [];
    ViewBeside(w, i, v, Seen(w, i)[n..]);
  }

  /** pop_back likewise. */
  lemma CropBeside(w: State, i: nat, n: nat, v: State)
    requires Counted(w) && IsBuffer(w, i) && n <= |Seen(w, i)|
    requires Does(w, if n < |Seen(w, i)| then PopBack(i, n) else Clear(i), v)
    ensures Beside(w, i, v) && Seen(v, i) == Seen(w, i)[..|Seen(w, i)| - n]
  {
    hide Counted, DropBack, DropAll, Seen;
    DoesRefines(w, if n < |Seen(w, i)| then PopBack(i, n) else Clear(i), v);
    ViewBeside(w, i, v, Seen(w, i)[..|Seen(w, i)| - n]);
  }
}
