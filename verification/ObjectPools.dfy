/**
 ObjectPool: objects go between callers, the free lists of threads and a global list of chunks. An
 object is the item of a block; blocks come from BlockGroups.
 */
module ObjectPools {

  type Tid = nat
  type BlockId = nat
  datatype Obj = Obj(block: BlockId, i: nat)
  datatype Option<T> = None | Some(value: T)

  /** Where a thread is in get or return_object. */
  datatype Pc =
    | Idle
    | PopTry                   // pop_free_chunk, before the mutex is taken
    | Copy(chunk: seq<Obj>)    // has taken a chunk from the global list
    | Take                     // about to take the last free object
    | FromBlock                // about to construct an object, or to add a block
    | FromNew                  // about to construct the first object of a new block
    | Push(o: Obj)             // the free list is full: push_free_chunk
    | Keep(o: Obj)             // the returned object starts a new free list

  /** The place of an object. */
  datatype Where = Caller | Local(t: Tid, i: nat) | Global(c: nat, i: nat) | Flight(t: Tid, i: nat) | InHand(t: Tid)

  datatype State = State(
    limit: nat,                   // free_chunk_nitem()
    items: nat,                   // BLOCK_NITEM
    free: map<Tid, seq<Obj>>,     // _cur_free of each thread
    cur: map<Tid, Option<BlockId>>,
    nitem: map<BlockId, nat>,
    chunks: seq<seq<Obj>>,        // _free_chunks
    held: set<Obj>,               // what the callers have
    pcs: map<Tid, Pc>,
    owner: map<BlockId, Tid>,     // history: whose block it is
    at: map<Obj, Where>)          // history: where every object is

  function Goto(s: State, t: Tid, pc: Pc): State {
    s.(pcs := s.pcs[t := pc])
  }

  // ---- get ----

  /** The last object of the free list goes to the caller. */
  function TakeStep(s: State, t: Tid): State
    requires t in s.free && |s.free[t]| > 0
  {
    var n := |s.free[t]| - 1;
    var o := s.free[t][n];
    Goto(s.(free := s.free[t := s.free[t][..n]], held := s.held + {o}, at := s.at[o := Caller]), t, Idle)
  }

  function GetStep(s: State, t: Tid): State
    requires t in s.free
  {
    if |s.free[t]| > 0 then TakeStep(s, t) else Goto(s, t, if s.chunks == [] then FromBlock else PopTry)
  }

  /** The last chunk leaves the global list, under its mutex. */
  function PopStep(s: State, t: Tid): State {
    if s.chunks == [] then Goto(s, t, FromBlock)
    else
      var n := |s.chunks| - 1;
      Goto(s.(chunks := s.chunks[..n],
        at := map o | o in s.at :: if s.at[o].Global? && s.at[o].c == n then Flight(t, s.at[o].i) else s.at[o]),
        t, Copy(s.chunks[n]))
  }

  function CopyStep(s: State, t: Tid, chunk: seq<Obj>): State {
    Goto(s.(free := s.free[t := chunk],
      at := map o | o in s.at :: if s.at[o].Flight? && s.at[o].t == t then Local(t, s.at[o].i) else s.at[o]), t, Take)
  }

  /** A new object is constructed in the block of the thread. */
  function Construct(s: State, t: Tid, b: BlockId): State
    requires b in s.nitem
  {
    var o := Obj(b, s.nitem[b]);
    Goto(s.(nitem := s.nitem[b := s.nitem[b] + 1], held := s.held + {o}, at := s.at[o := Caller]), t, Idle)
  }

  predicate HasRoom(s: State, t: Tid) {
    t in s.cur && s.cur[t].Some? && s.cur[t].value in s.nitem && s.nitem[s.cur[t].value] < s.items
  }

  /** From the current block if it has room, otherwise from the new block `b`; `ok` says whether the
      object is valid or the block could be added. */
  function BlockStep(s: State, t: Tid, ok: bool, b: BlockId): State {
    if HasRoom(s, t) then (if ok then Construct(s, t, s.cur[t].value) else Goto(s, t, Idle))
    else if ok && b !in s.nitem then
      Goto(s.(nitem := s.nitem[b := 0], cur := s.cur[t := Some(b)], owner := s.owner[b := t]), t, FromNew)
    else Goto(s.(cur := s.cur[t := None]), t, Idle)
  }

  function NewStep(s: State, t: Tid, ok: bool): State {
    if ok && HasRoom(s, t) then Construct(s, t, s.cur[t].value) else Goto(s, t, Idle)
  }

  // ---- return_object ----

  function ReturnStep(s: State, t: Tid, o: Obj): State
    requires t in s.free
  {
    if |s.free[t]| < s.limit then
      Goto(s.(free := s.free[t := s.free[t] + [o]], held := s.held - {o}, at := s.at[o := Local(t, |s.free[t]|)]), t,
        Idle)
    else Goto(s.(held := s.held - {o}, at := s.at[o := InHand(t)]), t, Push(o))
  }

  /** The free list of a thread becomes a chunk of the global list. */
  function PushFree(s: State, t: Tid): State
    requires t in s.free
  {
    var n := |s.chunks|;
    s.(chunks := s.chunks + [s.free[t]], free := s.free[t := []],
       at := map o | o in s.at :: if s.at[o].Local? && s.at[o].t == t then Global(n, s.at[o].i) else s.at[o])
  }

  function PushStep(s: State, t: Tid, o: Obj, ok: bool): State
    requires t in s.free
  {
    if ok then Goto(PushFree(s, t), t, Keep(o))
    else Goto(s.(held := s.held + {o}, at := s.at[o := Caller]), t, Idle)
  }

  function KeepStep(s: State, t: Tid, o: Obj): State {
    Goto(s.(free := s.free[t := [o]], at := s.at[o := Local(t, 0)]), t, Idle)
  }

  // ---- Runs ----

  datatype Action =
    | Get(t: Tid)                             // a caller asks for an object
    | Return(t: Tid, o: Obj)                  // a caller returns an object it holds
    | Exit(t: Tid)                            // a thread ends with free objects
    | Go(t: Tid, ok: bool, b: BlockId)        // a thread that is under way goes on

  predicate Can(s: State, a: Action) {
    && a.t in s.pcs && a.t in s.free
    && match a
       case Get(t) => s.pcs[t] == Idle
       case Return(t, o) => s.pcs[t] == Idle && o in s.held
       case Exit(t) => s.pcs[t] == Idle && |s.free[t]| > 0
       case Go(t, _, _) => s.pcs[t] != Idle && (s.pcs[t] == Take ==> |s.free[t]| > 0)
  }

  function Do(s: State, a: Action): State
    requires Can(s, a)
  {
    match a
    case Get(t) => GetStep(s, t)
    case Return(t, o) => ReturnStep(s, t, o)
    case Exit(t) => PushFree(s, t)
    case Go(t, ok, b) =>
      match s.pcs[t]
      case PopTry => PopStep(s, t)
      case Copy(chunk) => CopyStep(s, t, chunk)
      case Take => TakeStep(s, t)
      case FromBlock => BlockStep(s, t, ok, b)
      case FromNew => NewStep(s, t, ok)
      case Push(o) => PushStep(s, t, o, ok)
      case Keep(o) => KeepStep(s, t, o)
  }

  predicate Init(s: State) {
    && s.chunks == [] && s.held == {} && s.nitem == map[] && s.at == map[] && s.owner == map[] && s.items >= 1
    && (forall t: Tid :: t in s.pcs ==> s.pcs[t] == Idle && t in s.free && t in s.cur)
    && (forall t: Tid :: t in s.free ==> s.free[t] == [] && t in s.pcs)
    && (forall t: Tid :: t in s.cur ==> s.cur[t] == None)
  }

  // ---- The invariant ----

  predicate IsAt(s: State, o: Obj, w: Where) {
    match w
    case Caller => o in s.held
    case Local(t, i) => t in s.free && i < |s.free[t]| && s.free[t][i] == o
    case Global(c, i) => c < |s.chunks| && i < |s.chunks[c]| && s.chunks[c][i] == o
    case Flight(t, i) => t in s.pcs && s.pcs[t].Copy? && i < |s.pcs[t].chunk| && s.pcs[t].chunk[i] == o
    case InHand(t) => t in s.pcs && (s.pcs[t] == Push(o) || s.pcs[t] == Keep(o))
  }

  /** The history says where an object is, and it is nowhere else. */
  predicate PlaceOk(s: State, o: Obj, w: Where) {
    IsAt(s, o, w) <==> o in s.at && s.at[o] == w
  }

  predicate ObjOk(s: State, o: Obj) {
    o in s.at <==> o.block in s.nitem && o.i < s.nitem[o.block]
  }

  /** How many objects a free list holds at most; a list for none still gets one when an object is kept. */
  function Most(s: State): nat {
    if s.limit >= 1 then s.limit else 1
  }

  predicate ThreadOk(s: State, t: Tid)
    requires t in s.pcs
  {
    && t in s.free && t in s.cur && |s.free[t]| <= Most(s)
    && (s.cur[t].Some? ==> s.cur[t].value in s.owner && s.owner[s.cur[t].value] == t && s.cur[t].value in s.nitem)
    && match s.pcs[t]
       case Copy(chunk) => (s.limit >= 1 ==> |chunk| > 0) && |chunk| <= Most(s) && s.free[t] == []
       case Take => s.limit >= 1 ==> |s.free[t]| > 0
       case PopTry => s.free[t] == []
       case FromBlock => s.free[t] == []
       case FromNew => s.free[t] == [] && s.cur[t].Some?
       case Keep(_) => s.free[t] == []
       case Push(_) => |s.free[t]| >= s.limit
       case _ => true
  }

  ghost predicate AllPlaced(s: State) {
    forall o: Obj, w: Where :: PlaceOk(s, o, w)
  }

  ghost predicate AllBorn(s: State) {
    forall o: Obj :: ObjOk(s, o)
  }

  predicate ChunkOk(s: State, chunk: seq<Obj>) {
    (s.limit >= 1 ==> |chunk| > 0) && |chunk| <= Most(s)
  }

  predicate AllChunksOk(s: State) {
    forall c :: 0 <= c < |s.chunks| ==> ChunkOk(s, s.chunks[c])
  }

  /** No more objects are constructed in a block than it has room for. */
  predicate AllFit(s: State) {
    forall b :: b in s.nitem ==> s.nitem[b] <= s.items
  }

  ghost predicate Inv(s: State) {
    && s.items >= 1 && AllPlaced(s) && AllBorn(s) && AllFit(s) && AllChunksOk(s)
    && (forall t: Tid :: t in s.pcs ==> ThreadOk(s, t))
  }

  lemma InitInv(s: State)
    requires Init(s)
    ensures Inv(s)
  {
  }

  // ---- Every object stays in one place ----

  lemma GotoPlaces(s: State, t: Tid, pc: Pc, o: Obj, w: Where)
    requires PlaceOk(s, o, w) && t in s.pcs
    requires !s.pcs[t].Copy? && !s.pcs[t].Push? && !s.pcs[t].Keep? && !pc.Copy? && !pc.Push? && !pc.Keep?
    ensures PlaceOk(Goto(s, t, pc), o, w)
  {
  }

  lemma TakePlaces(s: State, t: Tid, o: Obj, w: Where)
    requires AllPlaced(s) && t in s.pcs && t in s.free && |s.free[t]| > 0
    requires !s.pcs[t].Copy? && !s.pcs[t].Push? && !s.pcs[t].Keep?
    ensures PlaceOk(TakeStep(s, t), o, w)
  {
    var n := |s.free[t]| - 1;
    assert PlaceOk(s, s.free[t][n], Local(t, n)) && PlaceOk(s, o, w);
  }

  lemma PopPlaces(s: State, t: Tid, o: Obj, w: Where)
    requires AllPlaced(s) && t in s.pcs && s.pcs[t] == PopTry && s.chunks != []
    ensures PlaceOk(PopStep(s, t), o, w)
  {
    var n := |s.chunks| - 1;
    assert PlaceOk(s, o, w);
    if o in s.at {
      assert PlaceOk(s, o, s.at[o]);
    }
    if w.Flight? && w.t == t {
      assert PlaceOk(s, o, Global(n, w.i));
    }
  }

  lemma CopyPlaces(s: State, t: Tid, chunk: seq<Obj>, o: Obj, w: Where)
    requires AllPlaced(s) && t in s.pcs && t in s.free && s.pcs[t] == Copy(chunk) && s.free[t] == []
    ensures PlaceOk(CopyStep(s, t, chunk), o, w)
  {
    assert PlaceOk(s, o, w);
    if o in s.at {
      assert PlaceOk(s, o, s.at[o]);
    }
    if w.Local? && w.t == t {
      assert PlaceOk(s, o, Flight(t, w.i));
    }
  }

  lemma ConstructPlaces(s: State, t: Tid, b: BlockId, o: Obj, w: Where)
    requires AllPlaced(s) && AllBorn(s) && t in s.pcs && b in s.nitem
    requires !s.pcs[t].Copy? && !s.pcs[t].Push? && !s.pcs[t].Keep?
    ensures PlaceOk(Construct(s, t, b), o, w)
  {
    assert ObjOk(s, Obj(b, s.nitem[b])) && PlaceOk(s, o, w);
  }

  lemma ReturnPlaces(s: State, t: Tid, x: Obj, o: Obj, w: Where)
    requires AllPlaced(s) && t in s.pcs && t in s.free && s.pcs[t] == Idle && x in s.held
    ensures PlaceOk(ReturnStep(s, t, x), o, w)
  {
    hide PlaceOk, ReturnStep;
    assert PlaceOk(s, x, Caller) && PlaceOk(s, o, w);
    ReturnPlace(s, t, x, o, w);
  }

  lemma ReturnPlace(s: State, t: Tid, x: Obj, o: Obj, w: Where)
    requires t in s.pcs && t in s.free && s.pcs[t] == Idle && x in s.held && PlaceOk(s, x, Caller) && PlaceOk(s, o, w)
    ensures PlaceOk(ReturnStep(s, t, x), o, w)
  {
  }

  lemma PushFreePlaces(s: State, t: Tid, o: Obj, w: Where)
    requires AllPlaced(s) && t in s.free
    ensures PlaceOk(PushFree(s, t), o, w)
  {
    assert PlaceOk(s, o, w);
    if o in s.at {
      assert PlaceOk(s, o, s.at[o]);
    }
    if w.Global? && w.c == |s.chunks| {
      assert PlaceOk(s, o, Local(t, w.i));
    }
  }

  /** The object in hand stays in hand. */
  lemma HandPlaces(s: State, t: Tid, x: Obj, o: Obj, w: Where)
    requires PlaceOk(s, o, w) && t in s.pcs && s.pcs[t] == Push(x)
    ensures PlaceOk(Goto(s, t, Keep(x)), o, w)
  {
  }

  lemma DropPlaces(s: State, t: Tid, x: Obj, o: Obj, w: Where)
    requires AllPlaced(s) && t in s.pcs && s.pcs[t] == Push(x)
    ensures PlaceOk(Goto(s.(held := s.held + {x}, at := s.at[x := Caller]), t, Idle), o, w)
  {
    assert PlaceOk(s, x, InHand(t)) && PlaceOk(s, o, w);
  }

  lemma KeepPlaces(s: State, t: Tid, x: Obj, o: Obj, w: Where)
    requires AllPlaced(s) && t in s.pcs && t in s.free && s.pcs[t] == Keep(x) && s.free[t] == []
    ensures PlaceOk(KeepStep(s, t, x), o, w)
  {
    assert PlaceOk(s, x, InHand(t)) && PlaceOk(s, o, w);
  }

  lemma BlockPlaces(s: State, t: Tid, ok: bool, b: BlockId, o: Obj, w: Where)
    requires AllPlaced(s) && AllBorn(s) && t in s.pcs && s.pcs[t] == FromBlock
    ensures PlaceOk(BlockStep(s, t, ok, b), o, w)
  {
    hide Construct;
    assert PlaceOk(s, o, w);
    if HasRoom(s, t) && ok {
      ConstructPlaces(s, t, s.cur[t].value, o, w);
    }
  }

  lemma GoPlaces(s: State, t: Tid, ok: bool, b: BlockId, o: Obj, w: Where)
    requires Inv(s) && Can(s, Go(t, ok, b))
    ensures PlaceOk(Do(s, Go(t, ok, b)), o, w)
  {
    hide TakeStep, PopStep, CopyStep, Construct, ReturnStep, PushFree, KeepStep, IsAt, BlockStep;
    assert ThreadOk(s, t) && PlaceOk(s, o, w);
    match s.pcs[t]
    case PopTry =>
      if s.chunks == [] {
        GotoPlaces(s, t, FromBlock, o, w);
        NoChunk(s, t);
      } else {
        PopPlaces(s, t, o, w);
      }
    case Copy(chunk) => CopyPlaces(s, t, chunk, o, w);
    case Take => TakePlaces(s, t, o, w);
    case FromBlock => BlockPlaces(s, t, ok, b, o, w);
    case FromNew =>
      if ok && HasRoom(s, t) {
        ConstructPlaces(s, t, s.cur[t].value, o, w);
      } else {
        GotoPlaces(s, t, Idle, o, w);
      }
    case Push(x) =>
      if ok {
        PushFreePlaces(s, t, o, w);
        SamePc(s, t);
        HandPlaces(PushFree(s, t), t, x, o, w);
      } else {
        DropPlaces(s, t, x, o, w);
      }
    case Keep(x) => KeepPlaces(s, t, x, o, w);
  }

  lemma NoChunk(s: State, t: Tid)
    requires s.chunks == []
    ensures PopStep(s, t) == Goto(s, t, FromBlock)
  {
  }

  lemma SamePc(s: State, t: Tid)
    requires t in s.free
    ensures PushFree(s, t).pcs == s.pcs
  {
  }

  lemma DoPlaces(s: State, a: Action, o: Obj, w: Where)
    requires Inv(s) && Can(s, a)
    ensures PlaceOk(Do(s, a), o, w)
  {
    hide TakeStep, PopStep, CopyStep, Construct, ReturnStep, PushFree, KeepStep, IsAt, BlockStep;
    assert PlaceOk(s, o, w);
    match a
    case Get(t) =>
      if |s.free[t]| > 0 {
        TakePlaces(s, t, o, w);
      } else {
        GotoPlaces(s, t, if s.chunks == [] then FromBlock else PopTry, o, w);
      }
    case Return(t, x) => ReturnPlaces(s, t, x, o, w);
    case Exit(t) => PushFreePlaces(s, t, o, w);
    case Go(t, ok, b) => GoPlaces(s, t, ok, b, o, w);
  }

  /** Exactly the constructed objects have a place. */
  lemma DoBorn(s: State, a: Action, o: Obj)
    requires Inv(s) && Can(s, a)
    ensures ObjOk(Do(s, a), o)
  {
    assert ObjOk(s, o);
    match a
    case Get(t) =>
      if |s.free[t]| > 0 {
        var n := |s.free[t]| - 1;
        assert PlaceOk(s, s.free[t][n], Local(t, n));
      }
    case Return(t, x) => assert PlaceOk(s, x, Caller);
    case Exit(t) =>
    case Go(t, ok, b) => GoBorn(s, t, ok, b, o);
  }

  lemma BlockBorn(s: State, t: Tid, ok: bool, b: BlockId, o: Obj)
    requires ObjOk(s, o)
    ensures ObjOk(BlockStep(s, t, ok, b), o) && ObjOk(NewStep(s, t, ok), o)
  {
  }

  lemma PopBorn(s: State, t: Tid, chunk: seq<Obj>, o: Obj)
    requires ObjOk(s, o)
    ensures ObjOk(PopStep(s, t), o) && ObjOk(CopyStep(s, t, chunk), o)
  {
  }

  lemma PushBorn(s: State, t: Tid, x: Obj, ok: bool, o: Obj)
    requires ObjOk(s, o) && t in s.free && x in s.at
    ensures ObjOk(PushStep(s, t, x, ok), o) && ObjOk(KeepStep(s, t, x), o)
  {
  }

  lemma TakeBorn(s: State, t: Tid, o: Obj)
    requires ObjOk(s, o) && t in s.free && |s.free[t]| > 0 && s.free[t][|s.free[t]| - 1] in s.at
    ensures ObjOk(TakeStep(s, t), o)
  {
  }

  lemma GoBorn(s: State, t: Tid, ok: bool, b: BlockId, o: Obj)
    requires Inv(s) && Can(s, Go(t, ok, b))
    ensures ObjOk(Do(s, Go(t, ok, b)), o)
  {
    hide TakeStep, PopStep, CopyStep, BlockStep, NewStep, PushStep, KeepStep;
    assert ThreadOk(s, t) && ObjOk(s, o);
    match s.pcs[t]
    case Take =>
      var n := |s.free[t]| - 1;
      assert PlaceOk(s, s.free[t][n], Local(t, n));
      TakeBorn(s, t, o);
    case PopTry => PopBorn(s, t, [], o);
    case Copy(chunk) => PopBorn(s, t, chunk, o);
    case Push(x) =>
      assert PlaceOk(s, x, InHand(t));
      PushBorn(s, t, x, ok, o);
    case Keep(x) =>
      assert PlaceOk(s, x, InHand(t));
      PushBorn(s, t, x, ok, o);
    case FromBlock => BlockBorn(s, t, ok, b, o);
    case FromNew => BlockBorn(s, t, ok, b, o);
  }

  ghost predicate NotOnly(s: State, t: Tid, s': State) {
    || t !in s'.pcs || t !in s'.free || t !in s'.cur || s'.limit != s.limit || s'.items != s.items
    || s'.pcs != s.pcs[t := s'.pcs[t]] || s'.free != s.free[t := s'.free[t]] || s'.cur != s.cur[t := s'.cur[t]]
    || (exists b :: b in s.nitem && b !in s'.nitem)
    || (exists b :: b in s.nitem && b in s.owner && !(b in s'.owner && s'.owner[b] == s.owner[b]))
  }

  /** Of what belongs to threads only that of `t` changes. */
  ghost predicate Only(s: State, t: Tid, s': State) {
    !NotOnly(s, t, s')
  }

  ghost predicate There(s: State, t: Tid) {
    t in s.pcs && t in s.free && t in s.cur
  }

  lemma OnlyGet(s: State, t: Tid)
    requires There(s, t)
    ensures Only(s, t, GetStep(s, t)) && (|s.free[t]| > 0 ==> Only(s, t, TakeStep(s, t)))
  {
  }

  lemma OnlyPop(s: State, t: Tid, chunk: seq<Obj>)
    requires There(s, t)
    ensures Only(s, t, PopStep(s, t)) && Only(s, t, CopyStep(s, t, chunk))
  {
  }

  lemma OnlyBlock(s: State, t: Tid, ok: bool, b: BlockId)
    requires There(s, t)
    ensures Only(s, t, BlockStep(s, t, ok, b)) && Only(s, t, NewStep(s, t, ok))
  {
  }

  lemma OnlyReturn(s: State, t: Tid, o: Obj)
    requires There(s, t)
    ensures Only(s, t, ReturnStep(s, t, o)) && Only(s, t, KeepStep(s, t, o))
  {
  }

  lemma OnlyPush(s: State, t: Tid, o: Obj, ok: bool)
    requires There(s, t)
    ensures Only(s, t, PushFree(s, t)) && Only(s, t, PushStep(s, t, o, ok))
  {
  }

  lemma DoOnly(s: State, a: Action)
    requires Can(s, a) && There(s, a.t)
    ensures Only(s, a.t, Do(s, a))
  {
    hide Only, TakeStep, GetStep, PopStep, CopyStep, BlockStep, NewStep, ReturnStep, PushFree, PushStep, KeepStep;
    match a
    case Get(t) => OnlyGet(s, t);
    case Return(t, o) => OnlyReturn(s, t, o);
    case Exit(t) => OnlyPush(s, t, Obj(0, 0), true);
    case Go(t, ok, b) =>
      match s.pcs[t]
      case PopTry => OnlyPop(s, t, []);
      case Copy(chunk) => OnlyPop(s, t, chunk);
      case Take => OnlyGet(s, t);
      case FromBlock => OnlyBlock(s, t, ok, b);
      case FromNew => OnlyBlock(s, t, ok, b);
      case Push(o) => OnlyPush(s, t, o, ok);
      case Keep(o) => OnlyReturn(s, t, o);
  }

  /** What another thread relies on is untouched. */
  lemma ThreadBeside(s: State, t: Tid, s': State, u: Tid)
    requires Only(s, t, s') && u in s.pcs && ThreadOk(s, u) && u != t
    ensures u in s'.pcs && ThreadOk(s', u)
  {
  }

  lemma ThreadGets(s: State, t: Tid)
    requires t in s.pcs && s.pcs[t] == Idle && ThreadOk(s, t)
    ensures t in GetStep(s, t).pcs && ThreadOk(GetStep(s, t), t)
  {
  }

  lemma ThreadReturns(s: State, t: Tid, o: Obj)
    requires t in s.pcs && s.pcs[t] == Idle && ThreadOk(s, t)
    ensures t in ReturnStep(s, t, o).pcs && ThreadOk(ReturnStep(s, t, o), t)
  {
  }

  lemma ThreadPops(s: State, t: Tid, chunk: seq<Obj>)
    requires t in s.pcs && ThreadOk(s, t) && AllChunksOk(s)
    ensures s.pcs[t] == PopTry ==> t in PopStep(s, t).pcs && ThreadOk(PopStep(s, t), t)
    ensures s.pcs[t] == Copy(chunk) ==> t in CopyStep(s, t, chunk).pcs && ThreadOk(CopyStep(s, t, chunk), t)
  {
  }

  lemma ThreadTakes(s: State, t: Tid)
    requires t in s.pcs && ThreadOk(s, t) && |s.free[t]| > 0
    ensures t in TakeStep(s, t).pcs && ThreadOk(TakeStep(s, t), t)
  {
  }

  lemma ThreadConstructs(s: State, t: Tid)
    requires HasRoom(s, t) && t in s.pcs && ThreadOk(s, t)
    ensures var s' := Construct(s, t, s.cur[t].value); t in s'.pcs && ThreadOk(s', t)
  {
  }

  lemma ThreadBuilds(s: State, t: Tid, ok: bool, b: BlockId)
    requires t in s.pcs && ThreadOk(s, t) && s.pcs[t] == FromBlock
    ensures t in BlockStep(s, t, ok, b).pcs && ThreadOk(BlockStep(s, t, ok, b), t)
  {
    hide Construct;
    if HasRoom(s, t) {
      ThreadConstructs(s, t);
    }
  }

  lemma ThreadBegins(s: State, t: Tid, ok: bool)
    requires t in s.pcs && ThreadOk(s, t) && s.pcs[t] == FromNew
    ensures t in NewStep(s, t, ok).pcs && ThreadOk(NewStep(s, t, ok), t)
  {
    hide Construct;
    if HasRoom(s, t) {
      ThreadConstructs(s, t);
    }
  }

  lemma ThreadPushes(s: State, t: Tid, o: Obj, ok: bool)
    requires t in s.pcs && ThreadOk(s, t)
    ensures t in PushStep(s, t, o, ok).pcs && ThreadOk(PushStep(s, t, o, ok), t)
    ensures t in KeepStep(s, t, o).pcs && ThreadOk(KeepStep(s, t, o), t)
  {
  }

  lemma ThreadGoes(s: State, t: Tid, ok: bool, b: BlockId)
    requires Can(s, Go(t, ok, b)) && ThreadOk(s, t) && AllChunksOk(s)
    ensures var s' := Do(s, Go(t, ok, b)); t in s'.pcs && ThreadOk(s', t)
  {
    hide ThreadOk, AllChunksOk, TakeStep, GetStep, PopStep, CopyStep, BlockStep, NewStep, ReturnStep, PushFree,
      PushStep, KeepStep;
    match s.pcs[t]
    case PopTry => ThreadPops(s, t, []);
    case Copy(chunk) => ThreadPops(s, t, chunk);
    case Take => ThreadTakes(s, t);
    case FromBlock => ThreadBuilds(s, t, ok, b);
    case FromNew => ThreadBegins(s, t, ok);
    case Push(o) => ThreadPushes(s, t, o, ok);
    case Keep(o) => ThreadPushes(s, t, o, ok);
  }

  lemma DoThread(s: State, a: Action, u: Tid)
    requires Inv(s) && Can(s, a) && u in s.pcs
    ensures u in Do(s, a).pcs && ThreadOk(Do(s, a), u)
  {
    hide AllPlaced, AllBorn, ThreadOk, Only, TakeStep, GetStep, PopStep, CopyStep, BlockStep, NewStep, ReturnStep,
      PushFree, PushStep, KeepStep;
    assert AllChunksOk(s);
    if u != a.t {
      ThreadThere(s, a.t);
      DoOnly(s, a);
      ThreadBeside(s, a.t, Do(s, a), u);
    } else {
      match a
      case Get(t) => ThreadGets(s, t);
      case Return(t, o) => ThreadReturns(s, t, o);
      case Exit(t) => ThreadExits(s, t);
      case Go(t, ok, b) => ThreadGoes(s, t, ok, b);
    }
  }

  lemma ThreadThere(s: State, t: Tid)
    requires t in s.pcs && ThreadOk(s, t)
    ensures There(s, t)
  {
  }

  lemma ThreadExits(s: State, t: Tid)
    requires t in s.pcs && s.pcs[t] == Idle && ThreadOk(s, t)
    ensures t in PushFree(s, t).pcs && ThreadOk(PushFree(s, t), t)
  {
  }

  lemma PopChunks(s: State, t: Tid)
    requires AllChunksOk(s)
    ensures AllChunksOk(PopStep(s, t))
  {
  }

  lemma PushChunks(s: State, t: Tid)
    requires AllChunksOk(s) && t in s.free && ChunkOk(s, s.free[t])
    ensures AllChunksOk(PushFree(s, t)) && PushFree(s, t).limit == s.limit
  {
  }

  lemma OtherChunks(s: State, t: Tid, o: Obj, ok: bool, b: BlockId, chunk: seq<Obj>)
    requires There(s, t)
    ensures GetStep(s, t).chunks == CopyStep(s, t, chunk).chunks == BlockStep(s, t, ok, b).chunks
      == NewStep(s, t, ok).chunks
      == ReturnStep(s, t, o).chunks == KeepStep(s, t, o).chunks == s.chunks
    ensures |s.free[t]| > 0 ==> TakeStep(s, t).chunks == s.chunks
    ensures PushStep(s, t, o, ok).chunks == if ok then PushFree(s, t).chunks else s.chunks
  {
  }

  lemma SameChunks(s: State, s': State)
    requires AllChunksOk(s) && s'.chunks == s.chunks && s'.limit == s.limit
    ensures AllChunksOk(s')
  {
  }

  lemma DoChunks(s: State, a: Action)
    requires Inv(s) && Can(s, a) && There(s, a.t)
    ensures AllChunksOk(Do(s, a))
  {
    hide AllPlaced, AllBorn, TakeStep, GetStep, PopStep, CopyStep, BlockStep, NewStep, ReturnStep, PushFree, PushStep,
      KeepStep;
    assert AllChunksOk(s) && ThreadOk(s, a.t);
    var o := if a.Return? then a.o else if a.Go? && (s.pcs[a.t].Push? || s.pcs[a.t].Keep?) then s.pcs[a.t].o
      else Obj(0, 0);
    var chunk := if s.pcs[a.t].Copy? then s.pcs[a.t].chunk else [];
    OtherChunks(s, a.t, o, a.Go? && a.ok, if a.Go? then a.b else 0, chunk);
    DoSame(s, a);
    if a.Go? && s.pcs[a.t] == PopTry {
      PopChunks(s, a.t);
    } else if a.Exit? || (a.Go? && s.pcs[a.t].Push? && a.ok) {
      PushChunks(s, a.t);
      SameChunks(PushFree(s, a.t), Do(s, a));
    } else {
      SameChunks(s, Do(s, a));
    }
  }

  lemma FitsGet(s: State, t: Tid, chunk: seq<Obj>)
    requires There(s, t)
    ensures GetStep(s, t).nitem == PopStep(s, t).nitem == CopyStep(s, t, chunk).nitem == PushFree(s, t).nitem == s.nitem
    ensures |s.free[t]| > 0 ==> TakeStep(s, t).nitem == s.nitem
  {
  }

  lemma FitsReturn(s: State, t: Tid, o: Obj, ok: bool)
    requires There(s, t)
    ensures ReturnStep(s, t, o).nitem == PushStep(s, t, o, ok).nitem == KeepStep(s, t, o).nitem == s.nitem
  {
  }

  lemma FitsBlock(s: State, t: Tid, ok: bool, b: BlockId)
    requires AllFit(s)
    ensures AllFit(BlockStep(s, t, ok, b)) && AllFit(NewStep(s, t, ok))
  {
  }

  lemma DoFits(s: State, a: Action)
    requires Inv(s) && Can(s, a) && There(s, a.t)
    ensures AllFit(Do(s, a))
  {
    hide AllPlaced, AllBorn, TakeStep, GetStep, PopStep, CopyStep, BlockStep, NewStep, ReturnStep, PushFree, PushStep,
      KeepStep, ThreadOk;
    DoSame(s, a);
    match a
    case Get(t) => FitsGet(s, t, []);
    case Return(t, o) => FitsReturn(s, t, o, true);
    case Exit(t) => FitsGet(s, t, []);
    case Go(t, ok, b) =>
      match s.pcs[t]
      case PopTry => FitsGet(s, t, []);
      case Copy(chunk) => FitsGet(s, t, chunk);
      case Take => FitsGet(s, t, []);
      case FromBlock => FitsBlock(s, t, ok, b);
      case FromNew => FitsBlock(s, t, ok, b);
      case Push(o) => FitsReturn(s, t, o, ok);
      case Keep(o) => FitsReturn(s, t, o, ok);
  }

  lemma DoSame(s: State, a: Action)
    requires Can(s, a) && There(s, a.t)
    ensures Do(s, a).limit == s.limit && Do(s, a).items == s.items && Do(s, a).pcs.Keys == s.pcs.Keys
  {
    hide Do;
    DoOnly(s, a);
    assert a.t in s.pcs;
  }

  lemma ActorThere(s: State, a: Action)
    requires Inv(s) && Can(s, a)
    ensures There(s, a.t)
  {
    assert ThreadOk(s, a.t);
  }

  lemma DoInv(s: State, a: Action)
    requires Inv(s) && Can(s, a)
    ensures Inv(Do(s, a)) && Do(s, a).limit == s.limit
  {
    hide ThreadOk, PlaceOk, ObjOk, Do, Can;
    var s' := Do(s, a);
    ActorThere(s, a);
    DoSame(s, a);
    forall o: Obj, w: Where
      ensures PlaceOk(s', o, w)
    {
      DoPlaces(s, a, o, w);
    }
    forall o: Obj
      ensures ObjOk(s', o)
    {
      DoBorn(s, a, o);
    }
    forall u: Tid | u in s'.pcs
      ensures ThreadOk(s', u)
    {
      DoThread(s, a, u);
    }
    DoChunks(s, a);
    DoFits(s, a);
  }

  ghost predicate NextAt(ss: seq<State>, k: nat) {
    k + 1 < |ss| ==> exists a: Action :: Can(ss[k], a) && ss[k + 1] == Do(ss[k], a)
  }

  ghost predicate IsRun(ss: seq<State>) {
    |ss| > 0 && Init(ss[0]) && forall k: nat :: NextAt(ss, k)
  }

  lemma {:induction false} RunInv(ss: seq<State>, k: nat)
    requires IsRun(ss) && k < |ss|
    ensures Inv(ss[k]) && ss[k].limit == ss[0].limit
  {
    hide Inv, Do, Can, Init;
    if k == 0 {
      InitInv(ss[0]);
    } else {
      RunInv(ss, k - 1);
      assert NextAt(ss, k - 1);
      var a: Action :| Can(ss[k - 1], a) && ss[k] == Do(ss[k - 1], a);
      DoInv(ss[k - 1], a);
    }
  }

  /** In every reachable state an object that was constructed is in exactly one place, and nothing else is
      anywhere. */
  lemma ExactlyOnePlace(ss: seq<State>, k: nat, o: Obj)
    requires IsRun(ss) && k < |ss|
    ensures var s := ss[k];
      && ((exists w: Where :: IsAt(s, o, w)) <==> o.block in s.nitem && o.i < s.nitem[o.block])
      && (forall w: Where, v: Where :: IsAt(s, o, w) && IsAt(s, o, v) ==> w == v)
  {
    RunInv(ss, k);
    var s := ss[k];
    assert ObjOk(s, o);
    forall w: Where, v: Where | IsAt(s, o, w) && IsAt(s, o, v)
      ensures w == v
    {
      assert PlaceOk(s, o, w) && PlaceOk(s, o, v);
    }
    forall w: Where | IsAt(s, o, w)
      ensures o in s.at
    {
      assert PlaceOk(s, o, w);
    }
    if o in s.at {
      assert PlaceOk(s, o, s.at[o]);
    }
  }

  /** A thread is about to take the last object of an empty free list. */
  ghost predicate TakesNothing(ss: seq<State>, k: nat, t: Tid) {
    IsRun(ss) && k < |ss| && t in ss[k].pcs && ss[k].pcs[t] == Take && t in ss[k].free && ss[k].free[t] == []
  }

  /** A chunk that is popped holds an object, so that taking the last one is in order. */
  lemma ChunksNotEmpty(ss: seq<State>, k: nat, t: Tid)
    requires IsRun(ss) && k < |ss| && ss[0].limit >= 1 && t in ss[k].pcs && ss[k].pcs[t] == Take
    ensures t in ss[k].free && |ss[k].free[t]| > 0
  {
    RunInv(ss, k);
    assert ThreadOk(ss[k], t);
  }

  // ---- How much a list and a block hold ----

  /**
   * In every reachable state no free list, no chunk of the global list and no chunk that is being copied holds more
   * than `limit` objects, or one if the limit is 0, and no block has more objects than it has room for.
   */
  lemma ListsBounded(ss: seq<State>, k: nat)
    requires IsRun(ss) && k < |ss|
    ensures var s, most := ss[k], if ss[0].limit >= 1 then ss[0].limit else 1;
      && (forall t: Tid :: t in s.pcs ==> t in s.free && |s.free[t]| <= most)
      && (forall c :: 0 <= c < |s.chunks| ==> |s.chunks[c]| <= most)
      && (forall t: Tid :: t in s.pcs && s.pcs[t].Copy? ==> |s.pcs[t].chunk| <= most)
      && (forall b :: b in s.nitem ==> s.nitem[b] <= s.items)
  {
    hide Do, Can, Init, AllPlaced, AllBorn;
    RunInv(ss, k);
    var s := ss[k];
    forall t: Tid | t in s.pcs
      ensures t in s.free && |s.free[t]| <= Most(s) && (s.pcs[t].Copy? ==> |s.pcs[t].chunk| <= Most(s))
    {
      assert ThreadOk(s, t);
    }
    forall c | 0 <= c < |s.chunks|
      ensures |s.chunks[c]| <= Most(s)
    {
      assert ChunkOk(s, s.chunks[c]);
    }
  }

  /** An object goes to a list with room for it, at its end; a list without room is kept to be pushed. */
  lemma ReturnsTo(s: State, t: Tid, o: Obj)
    requires Can(s, Return(t, o))
    ensures var s' := Do(s, Return(t, o));
      && t in s'.free && t in s'.pcs && s'.chunks == s.chunks
      && if |s.free[t]| < s.limit then s'.free[t] == s.free[t] + [o] && s'.pcs[t] == Idle
         else s'.free[t] == s.free[t] && s'.pcs[t] == Push(o)
  {
  }

  /** A list that is pushed becomes the last chunk of the global list, or stays and the caller keeps the object. */
  lemma PushesList(s: State, t: Tid, ok: bool, b: BlockId)
    requires Can(s, Go(t, ok, b)) && s.pcs[t].Push?
    ensures var s', o := Do(s, Go(t, ok, b)), s.pcs[t].o;
      && t in s'.free && t in s'.pcs
      && if ok then s'.chunks == s.chunks + [s.free[t]] && s'.free[t] == [] && s'.pcs[t] == Keep(o)
         else s'.chunks == s.chunks && s'.free[t] == s.free[t] && o in s'.held && s'.pcs[t] == Idle
  {
  }

  lemma KeepsObject(s: State, t: Tid, ok: bool, b: BlockId)
    requires Can(s, Go(t, ok, b)) && s.pcs[t].Keep?
    ensures var s' := Do(s, Go(t, ok, b));
      t in s'.free && t in s'.pcs && s'.free[t] == [s.pcs[t].o] && s'.pcs[t] == Idle && s'.chunks == s.chunks
  {
  }

  /** The step from the state `k` on is one of another thread. */
  ghost predicate OtherAt(ss: seq<State>, t: Tid, k: nat) {
    k + 1 < |ss| ==> exists a: Action :: Can(ss[k], a) && ss[k + 1] == Do(ss[k], a) && a.t != t
  }

  /** Between the states `j` and `k` the thread has not gone on. */
  ghost predicate Stood(ss: seq<State>, t: Tid, j: nat, k: nat) {
    forall l: nat :: j <= l < k ==> OtherAt(ss, t, l)
  }

  /** What a thread has stays as it is while others act. */
  lemma {:induction false} StoodSame(ss: seq<State>, t: Tid, j: nat, k: nat)
    requires IsRun(ss) && j <= k < |ss| && Stood(ss, t, j, k) && t in ss[j].pcs && t in ss[j].free
    ensures t in ss[k].pcs && t in ss[k].free && ss[k].pcs[t] == ss[j].pcs[t] && ss[k].free[t] == ss[j].free[t]
  {
    hide Do, Can, Init, Inv;
    if j < k {
      StoodSame(ss, t, j, k - 1);
      assert OtherAt(ss, t, k - 1);
      var a: Action :| Can(ss[k - 1], a) && ss[k] == Do(ss[k - 1], a) && a.t != t;
      RunInv(ss, k - 1);
      ActorThere(ss[k - 1], a);
      DoOnly(ss[k - 1], a);
    }
  }

  /**
   * An object is returned to a list that holds `limit` objects. Whatever other threads do meanwhile, the next step of
   * the thread makes just that list a chunk of the global list, and the object is kept for a new one; or there is no
   * memory for a chunk, and list and object stay where they were.
   */
  lemma FullListGoes(ss: seq<State>, t: Tid, o: Obj, j: nat, k: nat, ok: bool, b: BlockId)
    requires IsRun(ss) && j + 1 <= k && k + 1 < |ss|
    requires Can(ss[j], Return(t, o)) && |ss[j].free[t]| == ss[j].limit && ss[j + 1] == Do(ss[j], Return(t, o))
    requires Stood(ss, t, j + 1, k) && Can(ss[k], Go(t, ok, b)) && ss[k + 1] == Do(ss[k], Go(t, ok, b))
    ensures t in ss[k + 1].free && t in ss[k + 1].pcs
    ensures ok ==>
      ss[k + 1].chunks == ss[k].chunks + [ss[j].free[t]] && ss[k + 1].free[t] == [] && ss[k + 1].pcs[t] == Keep(o)
    ensures !ok ==> ss[k + 1].chunks == ss[k].chunks && ss[k + 1].free[t] == ss[j].free[t] && o in ss[k + 1].held
  {
    hide Do, Init, IsRun, Stood;
    ReturnsTo(ss[j], t, o);
    StoodSame(ss, t, j + 1, k);
    PushesList(ss[k], t, ok, b);
  }

  /** An object is constructed only by a thread that has none and found no chunk in the global list. */
  lemma ConstructsLast(ss: seq<State>, k: nat, a: Action)
    requires IsRun(ss) && k < |ss| && Can(ss[k], a)
    ensures var s, s' := ss[k], Do(ss[k], a);
      && (s'.nitem != s.nitem ==> a.Go? && s.pcs[a.t] in {FromBlock, FromNew} && s.free[a.t] == [])
      && (a.t in s'.pcs && s'.pcs[a.t] == FromBlock && s.pcs[a.t] != FromBlock ==> s.chunks == [] && s.free[a.t] == [])
  {
    hide AllPlaced, AllBorn, Init;
    RunInv(ss, k);
    assert ThreadOk(ss[k], a.t);
  }

  // ---- Free lists for no object at all ----

  ghost predicate Leads(s: State, a: Action, s': State) {
    Can(s, a) && s' == Do(s, a)
  }

  /** What there is to see of thread 0 and the global list. */
  predicate Look(s: State, pc: Pc, free: seq<Obj>, chunks: seq<seq<Obj>>) {
    && s.limit == 0 && s.items == 1 && 0 in s.pcs && 0 in s.free && 0 in s.cur
    && s.pcs[0] == pc && s.free[0] == free && s.chunks == chunks
  }

  lemma AskLooks(s: State)
    requires Look(s, Idle, [], [])
    ensures var s' := GetStep(s, 0);
      Leads(s, Get(0), s') && Look(s', FromBlock, [], []) && s'.nitem == s.nitem && s'.cur == s.cur
  {
  }

  lemma AddLooks(s: State)
    requires Look(s, FromBlock, [], []) && s.cur[0] == None && 7 !in s.nitem
    ensures var s' := BlockStep(s, 0, true, 7);
      Leads(s, Go(0, true, 7), s') && Look(s', FromNew, [], []) && HasRoom(s', 0)
  {
  }

  lemma NewLooks(s: State) returns (o: Obj)
    requires Look(s, FromNew, [], []) && HasRoom(s, 0)
    ensures var s' := NewStep(s, 0, true); Leads(s, Go(0, true, 7), s') && Look(s', Idle, [], []) && o in s'.held
  {
    o := Obj(s.cur[0].value, s.nitem[s.cur[0].value]);
  }

  /** A free list for no object is full when it is empty. */
  lemma ReturnLooks(s: State, o: Obj)
    requires Look(s, Idle, [], []) && o in s.held
    ensures var s' := ReturnStep(s, 0, o); Leads(s, Return(0, o), s') && Look(s', Push(o), [], [])
  {
  }

  lemma PushLooks(s: State, o: Obj)
    requires Look(s, Push(o), [], [])
    ensures var s' := PushStep(s, 0, o, true); Leads(s, Go(0, true, 7), s') && Look(s', Keep(o), [], [[]])
  {
  }

  lemma KeepLooks(s: State, o: Obj)
    requires Look(s, Keep(o), [], [[]])
    ensures var s' := KeepStep(s, 0, o); Leads(s, Go(0, true, 7), s') && Look(s', Idle, [o], [[]])
  {
  }

  lemma GetLooks(s: State, o: Obj)
    requires Look(s, Idle, [o], [[]])
    ensures var s' := GetStep(s, 0); Leads(s, Get(0), s') && Look(s', Idle, [], [[]])
  {
  }

  lemma TryLooks(s: State)
    requires Look(s, Idle, [], [[]])
    ensures var s' := GetStep(s, 0); Leads(s, Get(0), s') && Look(s', PopTry, [], [[]])
  {
  }

  lemma PopLooks(s: State)
    requires Look(s, PopTry, [], [[]])
    ensures var s' := PopStep(s, 0); Leads(s, Go(0, true, 7), s') && Look(s', Copy([]), [], [])
  {
  }

  lemma CopyLooks(s: State)
    requires Look(s, Copy([]), [], [])
    ensures var s' := CopyStep(s, 0, []); Leads(s, Go(0, true, 7), s') && Look(s', Take, [], [])
  {
  }

  lemma Continues(ss: seq<State>, a: Action, s': State)
    requires IsRun(ss) && Leads(ss[|ss| - 1], a, s')
    ensures IsRun(ss + [s'])
  {
    hide Init, Do, Can;
    forall k: nat
      ensures NextAt(ss + [s'], k)
    {
      var us := ss + [s'];
      if k + 1 < |ss| {
        assert NextAt(ss, k);
        var b: Action :| Can(ss[k], b) && ss[k + 1] == Do(ss[k], b);
        assert Can(us[k], b) && us[k + 1] == Do(us[k], b);
      } else if k + 1 < |us| {
        assert Can(us[k], a) && us[k + 1] == Do(us[k], a);
      }
    }
  }

  /** With a limit of 0 an object is got and returned, which pushes an empty chunk. */
  lemma EmptyChunkPushed() returns (ss: seq<State>, o: Obj)
    ensures IsRun(ss) && |ss| == 7 && ss[0].limit == 0 && Look(ss[6], Idle, [o], [[]])
  {
    hide Leads, Look, Do, Can, GetStep, BlockStep, NewStep, ReturnStep, PushStep, KeepStep;
    var s0 := State(0, 1, map[0 := []], map[0 := None], map[], [], {}, map[0 := Idle], map[], map[]);
    Looks(s0);
    var s1 := GetStep(s0, 0);
    AskLooks(s0);
    var s2 := BlockStep(s1, 0, true, 7);
    AddLooks(s1);
    var s3 := NewStep(s2, 0, true);
    o := NewLooks(s2);
    var s4 := ReturnStep(s3, 0, o);
    ReturnLooks(s3, o);
    var s5 := PushStep(s4, 0, o, true);
    PushLooks(s4, o);
    var s6 := KeepStep(s5, 0, o);
    KeepLooks(s5, o);
    Continues([s0], Get(0), s1);
    Continues([s0] + [s1], Go(0, true, 7), s2);
    Continues([s0] + [s1] + [s2], Go(0, true, 7), s3);
    Continues([s0] + [s1] + [s2] + [s3], Return(0, o), s4);
    Continues([s0] + [s1] + [s2] + [s3] + [s4], Go(0, true, 7), s5);
    ss := [s0] + [s1] + [s2] + [s3] + [s4] + [s5];
    Continues(ss, Go(0, true, 7), s6);
    ss := ss + [s6];
  }

  lemma Looks(s: State)
    requires s == State(0, 1, map[0 := []], map[0 := None], map[], [], {}, map[0 := Idle], map[], map[])
    ensures Look(s, Idle, [], []) && IsRun([s])
  {
  }

  /** A later get pops the empty chunk. */
  lemma EmptyChunkPopped() returns (ss: seq<State>)
    ensures TakesNothing(ss, 10, 0) && ss[0].limit == 0
  {
    hide Leads, Do, Can, GetStep, PopStep, CopyStep, Init;
    var o;
    ss, o := EmptyChunkPushed();
    var s7 := GetStep(ss[6], 0);
    GetLooks(ss[6], o);
    Continues(ss, Get(0), s7);
    ss := ss + [s7];
    var s8 := GetStep(s7, 0);
    TryLooks(s7);
    Continues(ss, Get(0), s8);
    ss := ss + [s8];
    var s9 := PopStep(s8, 0);
    PopLooks(s8);
    Continues(ss, Go(0, true, 7), s9);
    ss := ss + [s9];
    var s10 := CopyStep(s9, 0, []);
    CopyLooks(s9);
    Continues(ss, Go(0, true, 7), s10);
    ss := ss + [s10];
  }

  /** Free lists work exactly if they are for one object at least. */
  lemma LimitIsExact(limit: nat)
    ensures (exists ss: seq<State>, k: nat, t: Tid :: TakesNothing(ss, k, t) && ss[0].limit == limit) <==> limit == 0
  {
    hide Init, Do, Can;
    if limit == 0 {
      var ss := EmptyChunkPopped();
      assert TakesNothing(ss, 10, 0);
    } else {
      forall ss: seq<State>, k: nat, t: Tid | TakesNothing(ss, k, t) && ss[0].limit == limit
        ensures false
      {
        ChunksNotEmpty(ss, k, t);
      }
    }
  }
}
