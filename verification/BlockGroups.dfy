/**
 ObjectPool::add_block: threads put their new blocks into slots of block groups. The counter of a
 group may pass its capacity for a moment, and such an overshoot is taken back.
 */
module BlockGroups {

  const GROUP_NBLOCK := 65536
  const MAX_NGROUP := 65536

  type Tid = nat
  type BlockId = nat
  type Slot = (nat, nat)   // group and index

  /** Where a thread is in add_block; `floor` is history: how many groups it has found full. */
  datatype Pc =
    | Idle
    | Load(block: BlockId, floor: nat)            // about to load _ngroup
    | Reserve(block: BlockId, group: nat, floor: nat) // about to increment nblock of the group
    | Store(block: BlockId, group: nat, i: nat)   // about to store into the slot
    | Undo(block: BlockId, group: nat)            // about to decrement nblock again
    | Grow(block: BlockId, seen: nat)             // add_block_group

  datatype State = State(
    nblock: seq<int>,                // per group; _ngroup is the length
    slots: map<Slot, BlockId>,       // what the groups hold
    pcs: map<Tid, Pc>,
    fault: bool,                     // a store hit a slot that was taken
    given: map<Slot, BlockId>,       // history: which block a slot was reserved for
    taken: seq<nat>,                 // history: how many slots of a group were reserved
    over: seq<set<Tid>>,             // history: who overshot a group
    home: map<BlockId, Slot>,        // history: the slot of a block
    who: map<BlockId, Tid>)          // history: the thread that adds a block

  function Goto(s: State, t: Tid, pc: Pc): State {
    s.(pcs := s.pcs[t := pc])
  }

  /** A thread starts to add a block that no thread has added before. */
  predicate Start(s: State, t: Tid, b: BlockId, s': State) {
    && t in s.pcs && s.pcs[t] == Idle && b !in s.home
    && (forall u: Tid :: u in s.pcs && s.pcs[u] != Idle ==> s.pcs[u].block != b)
    && s' == Goto(s.(who := s.who[b := t]), t, Load(b, 0))
  }

  function LoadStep(s: State, t: Tid, b: BlockId, floor: nat): State {
    Goto(s, t, if |s.nblock| >= 1 then Reserve(b, |s.nblock| - 1, floor) else Grow(b, 0))
  }

  /** fetch_add on the counter of a group. */
  function ReserveStep(s: State, t: Tid, b: BlockId, g: nat): State
    requires g < |s.nblock| == |s.taken| == |s.over|
  {
    var i := s.nblock[g];
    if 0 <= i < GROUP_NBLOCK then
      Goto(s.(nblock := s.nblock[g := i + 1], given := s.given[(g, i) := b], taken := s.taken[g := s.taken[g] + 1],
        home := s.home[b := (g, i)]), t, Store(b, g, i))
    else Goto(s.(nblock := s.nblock[g := i + 1], over := s.over[g := s.over[g] + {t}]), t, Undo(b, g))
  }

  function StoreStep(s: State, t: Tid, b: BlockId, g: nat, i: nat): State {
    Goto(s.(slots := s.slots[(g, i) := b], fault := s.fault || (g, i) in s.slots), t, Idle)
  }

  /** fetch_sub on the counter of a group. */
  function UndoStep(s: State, t: Tid, b: BlockId, g: nat): State
    requires g < |s.nblock| == |s.taken| == |s.over|
  {
    Goto(s.(nblock := s.nblock[g := s.nblock[g] - 1], over := s.over[g := s.over[g] - {t}]), t, Grow(b, g + 1))
  }

  /** add_block_group, under its mutex; `ok` says whether the allocation succeeds. */
  function GrowStep(s: State, t: Tid, b: BlockId, seen: nat, ok: bool): State {
    if |s.nblock| != seen then Goto(s, t, Load(b, seen))
    else if |s.nblock| < MAX_NGROUP && ok then
      Goto(s.(nblock := s.nblock + [0], taken := s.taken + [0], over := s.over + [{}]), t, Load(b, seen))
    else Goto(s, t, Idle)
  }

  /** The next step of a thread. */
  function Step(s: State, t: Tid, ok: bool): State
    requires t in s.pcs && s.pcs[t] != Idle && |s.nblock| == |s.taken| == |s.over|
  {
    match s.pcs[t]
    case Load(b, floor) => LoadStep(s, t, b, floor)
    case Reserve(b, g, _) => if g < |s.nblock| then ReserveStep(s, t, b, g) else s
    case Store(b, g, i) => StoreStep(s, t, b, g, i)
    case Undo(b, g) => if g < |s.nblock| then UndoStep(s, t, b, g) else s
    case Grow(b, seen) => GrowStep(s, t, b, seen, ok)
  }

  predicate Init(s: State) {
    && s.nblock == [] && s.taken == [] && s.over == [] && s.slots == map[] && s.given == map[] && s.home == map[]
    && !s.fault
    && forall t: Tid :: t in s.pcs ==> s.pcs[t] == Idle
  }

  // ---- The invariant ----

  predicate Mine(s: State, t: Tid, b: BlockId) {
    b in s.who && s.who[b] == t
  }

  predicate PcOk(s: State, t: Tid, pc: Pc) {
    match pc
    case Idle => true
    case Load(b, _) => Mine(s, t, b) && b !in s.home
    case Reserve(b, g, _) => Mine(s, t, b) && b !in s.home && g < |s.nblock|
    case Store(b, g, i) =>
      Mine(s, t, b) && b in s.home && s.home[b] == (g, i) && (g, i) in s.given && s.given[(g, i)] == b
        && (g, i) !in s.slots
    case Undo(b, g) => Mine(s, t, b) && b !in s.home && g < |s.over| && t in s.over[g]
    case Grow(b, seen) => Mine(s, t, b) && b !in s.home
  }

  /** The threads that overshot a group are those that are about to take it back. */
  ghost predicate OverIs(s: State, g: nat)
    requires g < |s.over|
  {
    forall t: Tid :: t in s.over[g] <==> t in s.pcs && s.pcs[t].Undo? && s.pcs[t].group == g
  }

  ghost predicate GroupOk(s: State, g: nat)
    requires g < |s.nblock| == |s.taken| == |s.over|
  {
    && s.taken[g] <= GROUP_NBLOCK && s.nblock[g] == s.taken[g] + |s.over[g]|
    && (|s.over[g]| > 0 ==> s.taken[g] == GROUP_NBLOCK) && OverIs(s, g)
  }

  /** A slot is reserved just when it is below the mark of its group. */
  predicate GivenOk(s: State, x: Slot)
    requires |s.nblock| == |s.taken|
  {
    && (x in s.given <==> x.0 < |s.taken| && x.1 < s.taken[x.0])
    && (x in s.slots ==> x in s.given && s.slots[x] == s.given[x])
    && (x in s.given ==> s.given[x] in s.home && s.home[s.given[x]] == x)
  }

  ghost predicate Inv(s: State) {
    && |s.nblock| == |s.taken| == |s.over| && !s.fault
    && (forall t: Tid :: t in s.pcs ==> PcOk(s, t, s.pcs[t]))
    && (forall g :: 0 <= g < |s.nblock| ==> GroupOk(s, g))
    && (forall x: Slot :: GivenOk(s, x))
  }

  lemma InitInv(s: State)
    requires Init(s)
    ensures Inv(s)
  {
  }

  lemma StepThread(s: State, t: Tid, ok: bool, u: Tid)
    requires Inv(s) && t in s.pcs && s.pcs[t] != Idle && u in s.pcs
    ensures var s' := Step(s, t, ok); u in s'.pcs && PcOk(s', u, s'.pcs[u])
  {
    assert PcOk(s, t, s.pcs[t]) && PcOk(s, u, s.pcs[u]);
    hide PcOk;
    StepSelf(s, t, ok);
    StepOther(s, t, ok, u);
  }

  /** The thread that acts is where it should be. */
  lemma StepSelf(s: State, t: Tid, ok: bool)
    requires Inv(s) && t in s.pcs && s.pcs[t] != Idle && PcOk(s, t, s.pcs[t])
    ensures var s' := Step(s, t, ok); PcOk(s', t, s'.pcs[t])
  {
    if s.pcs[t].Reserve? {
      var g := s.pcs[t].group;
      assert GroupOk(s, g) && GivenOk(s, (g, s.taken[g]));
    }
  }

  lemma OtherReserve(s: State, t: Tid, b: BlockId, g: nat, u: Tid)
    requires g < |s.nblock| == |s.taken| == |s.over| && t in s.pcs && u in s.pcs && u != t && Mine(s, t, b)
    requires PcOk(s, u, s.pcs[u]) && b !in s.home
    requires (g, s.taken[g]) !in s.given && (s.nblock[g] < GROUP_NBLOCK ==> s.nblock[g] == s.taken[g])
    ensures var s' := ReserveStep(s, t, b, g); u in s'.pcs && PcOk(s', u, s'.pcs[u])
  {
  }

  lemma OtherUndo(s: State, t: Tid, b: BlockId, g: nat, u: Tid)
    requires g < |s.nblock| == |s.taken| == |s.over| && t in s.pcs && u in s.pcs && u != t && PcOk(s, u, s.pcs[u])
    ensures var s' := UndoStep(s, t, b, g); u in s'.pcs && PcOk(s', u, s'.pcs[u])
  {
  }

  lemma OtherStore(s: State, t: Tid, b: BlockId, g: nat, i: nat, u: Tid)
    requires t in s.pcs && u in s.pcs && u != t && PcOk(s, u, s.pcs[u]) && PcOk(s, t, Store(b, g, i))
    ensures var s' := StoreStep(s, t, b, g, i); u in s'.pcs && PcOk(s', u, s'.pcs[u])
  {
  }

  lemma OtherElse(s: State, t: Tid, b: BlockId, seen: nat, ok: bool, u: Tid)
    requires |s.nblock| == |s.taken| == |s.over| && t in s.pcs && u in s.pcs && u != t && PcOk(s, u, s.pcs[u])
    ensures var s' := LoadStep(s, t, b, seen); u in s'.pcs && PcOk(s', u, s'.pcs[u])
    ensures var s' := GrowStep(s, t, b, seen, ok); u in s'.pcs && PcOk(s', u, s'.pcs[u])
  {
  }

  lemma OtherStays(s: State, t: Tid, ok: bool, u: Tid)
    requires |s.nblock| == |s.taken| == |s.over| && t in s.pcs && s.pcs[t] != Idle && PcOk(s, t, s.pcs[t])
    requires u in s.pcs && PcOk(s, u, s.pcs[u]) && u != t
    requires s.pcs[t].Reserve? ==> var g := s.pcs[t].group;
      (g, s.taken[g]) !in s.given && (s.nblock[g] < GROUP_NBLOCK ==> s.nblock[g] == s.taken[g])
    ensures var s' := Step(s, t, ok); u in s'.pcs && PcOk(s', u, s'.pcs[u])
  {
    hide LoadStep, ReserveStep, StoreStep, UndoStep, GrowStep;
    match s.pcs[t]
    case Load(b, f) => OtherElse(s, t, b, f, ok, u);
    case Reserve(b, g, _) => OtherReserve(s, t, b, g, u);
    case Store(b, g, i) => OtherStore(s, t, b, g, i, u);
    case Undo(b, g) => OtherUndo(s, t, b, g, u);
    case Grow(b, seen) => OtherElse(s, t, b, seen, ok, u);
  }

  lemma StepOther(s: State, t: Tid, ok: bool, u: Tid)
    requires Inv(s) && t in s.pcs && s.pcs[t] != Idle && PcOk(s, t, s.pcs[t]) && u in s.pcs && PcOk(s, u, s.pcs[u])
    ensures var s' := Step(s, t, ok); u in s'.pcs && (u != t ==> PcOk(s', u, s'.pcs[u]))
  {
    hide GivenOk, GroupOk;
    if s.pcs[t].Reserve? {
      NotGiven(s, s.pcs[t].group);
    }
    if u != t {
      OtherStays(s, t, ok, u);
    }
  }

  /** The next slot of a group is not reserved. */
  lemma NotGiven(s: State, g: nat)
    requires Inv(s) && g < |s.nblock|
    ensures (g, s.taken[g]) !in s.given && (s.nblock[g] < GROUP_NBLOCK ==> s.nblock[g] == s.taken[g])
  {
    assert GroupOk(s, g) && GivenOk(s, (g, s.taken[g]));
  }

  ghost predicate CountOk(taken: nat, nblock: int, over: set<Tid>) {
    taken <= GROUP_NBLOCK && nblock == taken + |over| && (|over| > 0 ==> taken == GROUP_NBLOCK)
  }

  lemma CountUp(taken: nat, nblock: int, over: set<Tid>, t: Tid)
    requires CountOk(taken, nblock, over) && t !in over
    ensures if 0 <= nblock < GROUP_NBLOCK then nblock == taken && CountOk(taken + 1, nblock + 1, over)
      else CountOk(taken, nblock + 1, over + {t})
  {
    assert |over + {t}| == |over| + 1;
  }

  lemma CountDown(taken: nat, nblock: int, over: set<Tid>, t: Tid)
    requires CountOk(taken, nblock, over) && t in over
    ensures CountOk(taken, nblock - 1, over - {t})
  {
    assert |over - {t}| == |over| - 1;
  }

  ghost predicate CountAt(s: State, g: nat) {
    g < |s.nblock| == |s.taken| == |s.over| && CountOk(s.taken[g], s.nblock[g], s.over[g])
  }

  lemma CountReserve(s: State, t: Tid, b: BlockId, g: nat, k: nat)
    requires g < |s.nblock| && CountAt(s, k) && t !in s.over[k]
    ensures CountAt(ReserveStep(s, t, b, g), k)
  {
    hide CountOk;
    CountUp(s.taken[k], s.nblock[k], s.over[k], t);
  }

  lemma CountUndo(s: State, t: Tid, b: BlockId, g: nat, k: nat)
    requires g < |s.nblock| && CountAt(s, k) && t in s.over[g]
    ensures CountAt(UndoStep(s, t, b, g), k)
  {
    hide CountOk;
    if k == g {
      CountDown(s.taken[k], s.nblock[k], s.over[k], t);
    }
  }

  lemma CountElse(s: State, t: Tid, b: BlockId, g: nat, i: nat, seen: nat, ok: bool, k: nat)
    requires CountAt(s, k)
    ensures CountAt(LoadStep(s, t, b, g), k) && CountAt(StoreStep(s, t, b, g, i), k)
      && CountAt(GrowStep(s, t, b, seen, ok), k)
  {
    hide CountOk;
  }

  lemma CountStays(s: State, t: Tid, ok: bool, k: nat)
    requires t in s.pcs && s.pcs[t] != Idle && CountAt(s, k) && PcOk(s, t, s.pcs[t]) && OverIs(s, k)
    ensures CountAt(Step(s, t, ok), k)
  {
    hide LoadStep, ReserveStep, StoreStep, UndoStep, GrowStep, OverIs, CountOk;
    match s.pcs[t]
    case Load(b, f) => CountElse(s, t, b, f, 0, 0, ok, k);
    case Reserve(b, g, _) =>
      NotOver(s, t, k);
      CountReserve(s, t, b, g, k);
    case Store(b, g, i) => CountElse(s, t, b, g, i, 0, ok, k);
    case Undo(b, g) => CountUndo(s, t, b, g, k);
    case Grow(b, seen) => CountElse(s, t, b, 0, 0, seen, ok, k);
  }

  lemma StepCount(s: State, t: Tid, ok: bool, g: nat)
    requires Inv(s) && t in s.pcs && s.pcs[t] != Idle && g < |Step(s, t, ok).nblock|
    ensures CountAt(Step(s, t, ok), g)
  {
    hide CountOk, GivenOk, OverIs, PcOk;
    if g < |s.nblock| {
      GroupParts(s, g);
      CountStays(s, t, ok, g);
    } else {
      CountNew();
    }
  }

  lemma CountNew()
    ensures CountOk(0, 0, {})
  {
  }

  lemma NotOver(s: State, t: Tid, g: nat)
    requires g < |s.over| && OverIs(s, g) && t in s.pcs && !s.pcs[t].Undo?
    ensures t !in s.over[g]
  {
  }

  lemma GroupParts(s: State, g: nat)
    requires g < |s.nblock| == |s.taken| == |s.over| && GroupOk(s, g)
    ensures CountOk(s.taken[g], s.nblock[g], s.over[g]) && OverIs(s, g)
  {
  }

  lemma OverReserve(s: State, t: Tid, b: BlockId, g: nat, k: nat)
    requires g < |s.nblock| == |s.taken| == |s.over| && t in s.pcs && s.pcs[t].Reserve? && s.pcs[t].block == b
      && s.pcs[t].group == g && k < |s.over|
      && OverIs(s, k)
    ensures var s' := ReserveStep(s, t, b, g); k < |s'.over| && OverIs(s', k)
  {
  }

  lemma OverUndo(s: State, t: Tid, b: BlockId, g: nat, k: nat)
    requires g < |s.nblock| == |s.taken| == |s.over| && t in s.pcs && s.pcs[t] == Undo(b, g) && k < |s.over|
      && OverIs(s, k)
    ensures var s' := UndoStep(s, t, b, g); k < |s'.over| && OverIs(s', k)
  {
  }

  lemma OverElse(s: State, t: Tid, b: BlockId, g: nat, i: nat, seen: nat, ok: bool, k: nat)
    requires t in s.pcs && !s.pcs[t].Undo? && k < |s.over| && OverIs(s, k)
    ensures var s' := LoadStep(s, t, b, seen); k < |s'.over| && OverIs(s', k)
    ensures var s' := StoreStep(s, t, b, g, i); k < |s'.over| && OverIs(s', k)
    ensures var s' := GrowStep(s, t, b, seen, ok); k < |s'.over| && OverIs(s', k)
  {
  }

  lemma OverStays(s: State, t: Tid, ok: bool, k: nat)
    requires |s.nblock| == |s.taken| == |s.over| && t in s.pcs && s.pcs[t] != Idle && PcOk(s, t, s.pcs[t])
    requires k < |s.over| && OverIs(s, k)
    ensures var s' := Step(s, t, ok); k < |s'.over| && OverIs(s', k)
  {
    hide LoadStep, ReserveStep, StoreStep, UndoStep, GrowStep, OverIs;
    match s.pcs[t]
    case Load(b, f) => OverElse(s, t, b, 0, 0, f, ok, k);
    case Reserve(b, g, _) => OverReserve(s, t, b, g, k);
    case Store(b, g, i) => OverElse(s, t, b, g, i, 0, ok, k);
    case Undo(b, g) => OverUndo(s, t, b, g, k);
    case Grow(b, seen) => OverElse(s, t, b, 0, 0, seen, ok, k);
  }

  lemma StepOver(s: State, t: Tid, ok: bool, g: nat)
    requires Inv(s) && t in s.pcs && s.pcs[t] != Idle && g < |Step(s, t, ok).nblock|
    ensures var s' := Step(s, t, ok); |s'.nblock| == |s'.taken| == |s'.over| && OverIs(s', g)
  {
    assert PcOk(s, t, s.pcs[t]);
    if g < |s.nblock| {
      hide GivenOk, OverIs, PcOk;
      GroupParts(s, g);
      OverStays(s, t, ok, g);
    } else {
      hide GivenOk, GroupOk, PcOk;
      NoneOver(s, |s.nblock|);
    }
  }

  /** Nobody overshot a group that does not exist yet. */
  lemma NoneOver(s: State, g: nat)
    requires Inv(s) && g >= |s.nblock|
    ensures forall t: Tid :: t in s.pcs && s.pcs[t].Undo? ==> s.pcs[t].group != g
  {
    forall t: Tid | t in s.pcs && s.pcs[t].Undo?
      ensures s.pcs[t].group != g
    {
      assert PcOk(s, t, s.pcs[t]);
    }
  }

  lemma StepGroup(s: State, t: Tid, ok: bool, g: nat)
    requires Inv(s) && t in s.pcs && s.pcs[t] != Idle && g < |Step(s, t, ok).nblock|
    ensures var s' := Step(s, t, ok); |s'.nblock| == |s'.taken| == |s'.over| && GroupOk(s', g)
  {
    hide Inv, OverIs;
    StepCount(s, t, ok, g);
    StepOver(s, t, ok, g);
  }

  lemma StepSlot(s: State, t: Tid, ok: bool, x: Slot)
    requires Inv(s) && t in s.pcs && s.pcs[t] != Idle
    ensures var s' := Step(s, t, ok); |s'.nblock| == |s'.taken| && GivenOk(s', x)
  {
    assert PcOk(s, t, s.pcs[t]) && GivenOk(s, x);
    if s.pcs[t].Reserve? {
      var g := s.pcs[t].group;
      assert GroupOk(s, g);
    }
  }

  lemma StepInv(s: State, t: Tid, ok: bool)
    requires Inv(s) && t in s.pcs && s.pcs[t] != Idle
    ensures Inv(Step(s, t, ok))
  {
    var s' := Step(s, t, ok);
    assert PcOk(s, t, s.pcs[t]);
    hide GroupOk, GivenOk;
    forall u: Tid | u in s'.pcs
      ensures PcOk(s', u, s'.pcs[u])
    {
      StepThread(s, t, ok, u);
    }
    forall g | 0 <= g < |s'.nblock|
      ensures |s'.nblock| == |s'.taken| == |s'.over| && GroupOk(s', g)
    {
      StepGroup(s, t, ok, g);
    }
    forall x: Slot
      ensures |s'.nblock| == |s'.taken| && GivenOk(s', x)
    {
      StepSlot(s, t, ok, x);
    }
  }

  lemma StartInv(s: State, t: Tid, b: BlockId, s': State)
    requires Inv(s) && Start(s, t, b, s')
    ensures Inv(s')
  {
    hide GivenOk;
    forall u: Tid | u in s'.pcs
      ensures PcOk(s', u, s'.pcs[u])
    {
      assert PcOk(s, u, s.pcs[u]);
    }
    forall g | 0 <= g < |s'.nblock|
      ensures GroupOk(s', g)
    {
      assert GroupOk(s, g);
    }
    forall x: Slot
      ensures GivenOk(s', x)
    {
      assert GivenOk(s, x);
      SameGiven(s, s', x);
    }
  }

  lemma SameGiven(s: State, s': State, x: Slot)
    requires |s.nblock| == |s.taken| && GivenOk(s, x)
    requires s'.nblock == s.nblock && s'.taken == s.taken && s'.given == s.given && s'.slots == s.slots
      && s'.home == s.home
    ensures GivenOk(s', x)
  {
  }

  ghost predicate Next(s: State, s': State) {
    || (exists t: Tid, b: BlockId :: Start(s, t, b, s'))
    || (exists t: Tid, ok: bool ::
      t in s.pcs && s.pcs[t] != Idle && |s.nblock| == |s.taken| == |s.over| && s' == Step(s, t, ok))
  }

  ghost predicate NextAt(ss: seq<State>, k: nat) {
    k + 1 < |ss| ==> Next(ss[k], ss[k + 1])
  }

  ghost predicate IsRun(ss: seq<State>) {
    |ss| > 0 && Init(ss[0]) && forall k: nat :: NextAt(ss, k)
  }

  lemma NextInv(s: State, s': State)
    requires Inv(s) && Next(s, s')
    ensures Inv(s')
  {
    hide Inv, Start, Step;
    if t: Tid, b: BlockId :| Start(s, t, b, s') {
      StartInv(s, t, b, s');
    } else {
      var t: Tid, ok: bool :| t in s.pcs && s.pcs[t] != Idle && |s.nblock| == |s.taken| == |s.over|
        && s' == Step(s, t, ok);
      StepInv(s, t, ok);
    }
  }

  lemma {:induction false} RunInv(ss: seq<State>, k: nat)
    requires IsRun(ss) && k < |ss|
    ensures Inv(ss[k])
  {
    hide Inv, Next, Init;
    if k == 0 {
      InitInv(ss[0]);
    } else {
      RunInv(ss, k - 1);
      assert NextAt(ss, k - 1);
      NextInv(ss[k - 1], ss[k]);
    }
  }

  /** No two calls of add_block share a slot: no store hits a slot that is taken, a block has one slot, and
      the counter of a group is off only by the threads that are about to take their overshoot back. */
  lemma SlotsNeverShared(ss: seq<State>, k: nat)
    requires IsRun(ss) && k < |ss|
    ensures var s := ss[k];
      && !s.fault
      && (forall x: Slot, y: Slot :: x in s.slots && y in s.slots && s.slots[x] == s.slots[y] ==> x == y)
      && |s.nblock| == |s.over|
      && (forall g :: 0 <= g < |s.nblock| ==> OverIs(s, g) && 0 <= s.nblock[g] - |s.over[g]| <= 65536)
  {
    RunInv(ss, k);
    var s := ss[k];
    forall x: Slot, y: Slot | x in s.slots && y in s.slots && s.slots[x] == s.slots[y]
      ensures x == y
    {
      assert GivenOk(s, x) && GivenOk(s, y);
    }
    forall g | 0 <= g < |s.nblock|
      ensures OverIs(s, g) && 0 <= s.nblock[g] - |s.over[g]| <= 65536
    {
      assert GroupOk(s, g);
    }
  }

  // ---- Groups are filled one after the other ----

  predicate FullGroup(s: State, g: nat) {
    g < |s.taken| && s.taken[g] == 65536
  }

  /** A thread tries only groups behind those it found full, and asks for a new one behind a full one. */
  predicate Forward(s: State, pc: Pc) {
    match pc
    case Idle => true
    case Load(_, floor) => floor == 0 || floor < |s.nblock|
    case Reserve(_, g, floor) => floor <= g < |s.nblock|
    case Store(_, _, _) => true
    case Undo(_, g) => g < |s.nblock| && FullGroup(s, g)
    case Grow(_, seen) => seen <= |s.nblock| && (seen > 0 ==> FullGroup(s, seen - 1))
  }

  /** There are no more groups than there may be, and all but the last are full. */
  ghost predicate Dense(s: State) {
    && |s.nblock| == |s.taken| <= 65536 && (forall g: nat :: g + 1 < |s.nblock| ==> FullGroup(s, g))
    && (forall t: Tid :: t in s.pcs ==> Forward(s, s.pcs[t]))
  }

  lemma FullStays(s: State, t: Tid, ok: bool, g: nat)
    requires Inv(s) && t in s.pcs && s.pcs[t] != Idle && FullGroup(s, g)
    ensures FullGroup(Step(s, t, ok), g)
  {
    if s.pcs[t].Reserve? && s.pcs[t].group < |s.nblock| {
      assert GroupOk(s, s.pcs[t].group);
    }
  }

  lemma GroupsStay(s: State, t: Tid, ok: bool)
    requires Inv(s) && t in s.pcs && s.pcs[t] != Idle
    ensures |Step(s, t, ok).nblock| >= |s.nblock|
  {
  }

  /** What is known of the groups stays true of more and fuller groups. */
  lemma ForwardStays(s: State, s': State, pc: Pc)
    requires Forward(s, pc) && |s'.nblock| >= |s.nblock|
    requires pc.Undo? && FullGroup(s, pc.group) ==> FullGroup(s', pc.group)
    requires pc.Grow? && pc.seen > 0 && FullGroup(s, pc.seen - 1) ==> FullGroup(s', pc.seen - 1)
    ensures Forward(s', pc)
  {
  }

  lemma ForwardOther(s: State, t: Tid, ok: bool, u: Tid)
    requires Inv(s) && Dense(s) && t in s.pcs && s.pcs[t] != Idle && u in s.pcs && u != t
    ensures Forward(Step(s, t, ok), s.pcs[u])
  {
    hide PcOk, GroupOk, GivenOk, Step, Forward;
    var pc := s.pcs[u];
    GroupsStay(s, t, ok);
    if pc.Undo? && FullGroup(s, pc.group) {
      FullStays(s, t, ok, pc.group);
    }
    if pc.Grow? && pc.seen > 0 && FullGroup(s, pc.seen - 1) {
      FullStays(s, t, ok, pc.seen - 1);
    }
    ForwardStays(s, Step(s, t, ok), pc);
  }

  lemma OthersWait(s: State, t: Tid, ok: bool, u: Tid)
    requires Inv(s) && t in s.pcs && s.pcs[t] != Idle && u in s.pcs
    ensures u in Step(s, t, ok).pcs && (u != t ==> Step(s, t, ok).pcs[u] == s.pcs[u])
  {
    hide GroupOk, GivenOk, PcOk;
  }

  lemma ReserveForward(s: State, t: Tid, b: BlockId, g: nat)
    requires g < |s.nblock| == |s.taken| == |s.over| && CountAt(s, g)
    ensures var s' := ReserveStep(s, t, b, g); t in s'.pcs && Forward(s', s'.pcs[t])
  {
  }

  lemma ForwardSelf(s: State, t: Tid, ok: bool)
    requires Inv(s) && Dense(s) && t in s.pcs && s.pcs[t] != Idle
    ensures var s' := Step(s, t, ok); t in s'.pcs && Forward(s', s'.pcs[t])
  {
    hide GivenOk, PcOk, ReserveStep, OverIs;
    assert Forward(s, s.pcs[t]);
    match s.pcs[t]
    case Reserve(b, g, _) =>
      GroupParts(s, g);
      ReserveForward(s, t, b, g);
    case _ =>
  }

  lemma StepForward(s: State, t: Tid, ok: bool, u: Tid)
    requires Inv(s) && Dense(s) && t in s.pcs && s.pcs[t] != Idle && u in s.pcs
    ensures var s' := Step(s, t, ok); u in s'.pcs && Forward(s', s'.pcs[u])
  {
    hide PcOk, GroupOk, GivenOk, Dense, Step, Forward;
    OthersWait(s, t, ok, u);
    if u == t {
      ForwardSelf(s, t, ok);
    } else {
      ForwardOther(s, t, ok, u);
    }
  }

  lemma StepFilled(s: State, t: Tid, ok: bool, g: nat)
    requires Inv(s) && Dense(s) && t in s.pcs && s.pcs[t] != Idle && g + 1 < |Step(s, t, ok).nblock|
    ensures FullGroup(Step(s, t, ok), g)
  {
    assert Forward(s, s.pcs[t]);
    if g + 1 < |s.nblock| {
      assert FullGroup(s, g);
    }
    hide Inv;
    FullStays(s, t, ok, g);
  }

  lemma StepDense(s: State, t: Tid, ok: bool)
    requires Inv(s) && Dense(s) && t in s.pcs && s.pcs[t] != Idle
    ensures Dense(Step(s, t, ok))
  {
    var s' := Step(s, t, ok);
    StepInv(s, t, ok);
    forall u: Tid | u in s'.pcs
      ensures Forward(s', s'.pcs[u])
    {
      StepForward(s, t, ok, u);
    }
    forall g: nat | g + 1 < |s'.nblock|
      ensures FullGroup(s', g)
    {
      StepFilled(s, t, ok, g);
    }
  }

  lemma StartDense(s: State, t: Tid, b: BlockId, s': State)
    requires Dense(s) && Start(s, t, b, s')
    ensures Dense(s')
  {
    forall u: Tid | u in s'.pcs
      ensures Forward(s', s'.pcs[u])
    {
      assert Forward(s, s.pcs[u]);
    }
    forall g: nat | g + 1 < |s'.nblock|
      ensures FullGroup(s', g)
    {
      assert FullGroup(s, g);
    }
  }

  /** In every reachable state all groups but the last are full, and no thread tries a group again that it found
      full. */
  lemma {:induction false} GroupsFillUp(ss: seq<State>, k: nat)
    requires IsRun(ss) && k < |ss|
    ensures Dense(ss[k])
  {
    hide Inv, Dense, Start, Step;
    if k == 0 {
      NoGroups(ss[0]);
    } else {
      GroupsFillUp(ss, k - 1);
      RunInv(ss, k - 1);
      assert NextAt(ss, k - 1);
      var s, s' := ss[k - 1], ss[k];
      if t: Tid, b: BlockId :| Start(s, t, b, s') {
        StartDense(s, t, b, s');
      } else {
        var t: Tid, ok: bool :| t in s.pcs && s.pcs[t] != Idle && |s.nblock| == |s.taken| == |s.over|
          && s' == Step(s, t, ok);
        StepDense(s, t, ok);
      }
    }
  }

  lemma NoGroups(s: State)
    requires Init(s)
    ensures Dense(s)
  {
  }

  /**
   * add_block ends with the block in its slot, or when there is no memory for a group or no group left to add; then
   * every group there is is full.
   */
  lemma AddEnds(ss: seq<State>, k: nat, t: Tid, ok: bool, s': State)
    requires IsRun(ss) && k < |ss| && t in ss[k].pcs && ss[k].pcs[t] != Idle
    requires |ss[k].nblock| == |ss[k].taken| == |ss[k].over| && s' == Step(ss[k], t, ok)
    requires t in s'.pcs && s'.pcs[t] == Idle
    ensures Stored(s', ss[k].pcs[t].block)
      || ((!ok || |ss[k].nblock| == 65536) && forall g: nat :: g < |ss[k].nblock| ==> FullGroup(ss[k], g))
  {
    hide Inv, Dense, Step, IsRun;
    GroupsFillUp(ss, k);
    EndsAt(ss[k], t, ok);
  }

  ghost predicate Stored(s: State, b: BlockId) {
    exists x: Slot :: x in s.slots && s.slots[x] == b
  }

  lemma EndsAt(s: State, t: Tid, ok: bool)
    requires Dense(s) && t in s.pcs && s.pcs[t] != Idle && |s.nblock| == |s.taken| == |s.over|
    ensures var s' := Step(s, t, ok);
      t in s'.pcs && s'.pcs[t] == Idle ==>
        || Stored(s', s.pcs[t].block)
        || ((!ok || |s.nblock| == MAX_NGROUP) && forall g: nat :: g < |s.nblock| ==> FullGroup(s, g))
  {
    hide ReserveStep, UndoStep;
    assert Forward(s, s.pcs[t]);
    match s.pcs[t]
    case Store(b, g, i) =>
      var s' := StoreStep(s, t, b, g, i);
      assert (g, i) in s'.slots && s'.slots[(g, i)] == b;
    case Grow(b, seen) =>
      forall g: nat | g < seen
        ensures g < |s.nblock| ==> FullGroup(s, g)
      {
        assert g + 1 < |s.nblock| ==> FullGroup(s, g);
      }
    case Reserve(b, g, _) => ReserveGoes(s, t, b, g);
    case Undo(b, g) => ReserveGoes(s, t, b, g);
    case _ =>
  }

  lemma ReserveGoes(s: State, t: Tid, b: BlockId, g: nat)
    requires g < |s.nblock| == |s.taken| == |s.over|
    ensures ReserveStep(s, t, b, g).pcs[t] != Idle && UndoStep(s, t, b, g).pcs[t] != Idle
  {
  }
}
