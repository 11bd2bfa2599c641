/** Safety of the AsyncLogger queue over every run. */
module AsyncLoggerSafety {
  import opened AsyncLogger

  // ---- The invariant ----

  /** The request a thread owns privately: not yet published, or about to be returned. */
  function Mine(pc: Pc): Option<Req> {
    match pc
    case Publish(r) => Some(r)
    case Done(r, _) => Some(r)
    case Free(r, _) => Some(r)
    case _ => None
  }

  datatype Runner = Producer | Background | Either

  /** Which threads can be at a program point. */
  function RunBy(pc: Pc): Runner {
    match pc
    case BgLock => Background
    case BgTest => Background
    case BgWait => Background
    case BgClear => Background
    case BgUnlock => Background
    case Exited => Background
    case Task(_) => Either
    case Scan(_) => Either
    case Free(_, _) => Either
    case Check(_, from) => if from.FromTask? then Either else Producer
    case Reverse(_, _, _, from) => if from.FromTask? then Either else Producer
    case LinkOld(_, _, from) => if from.FromTask? then Either else Producer
    case Done(_, from) => if from.FromTask? then Either else Producer
    case _ => Producer
  }

  /** Program points of the background thread at which _current_log_request is set. */
  predicate BgBusy(pc: Pc) {
    !(pc.BgLock? || pc.BgTest? || pc.BgWait? || pc.BgUnlock? || pc.Exited?)
  }

  /** Positions whose request still links (or will link) to the one exchanged before it. */
  predicate Back(l: Line, i: int) {
    l.lo < i < |l.q| && (l.hi <= i <= l.j || l.m <= i)
  }

  predicate Linked(next: map<Req, Link>, q: seq<Req>, i: nat)
    requires i + 1 < |q|
  {
    q[i] in next && next[q[i]] == To(q[i + 1])
  }

  /** The requests at positions [a, b) are linked in exchange order and the last one ends the list. */
  ghost predicate Forward(next: map<Req, Link>, q: seq<Req>, a: nat, b: nat)
    requires b <= |q|
  {
    && (forall i: nat :: a <= i < b - 1 ==> Linked(next, q, i))
    && (a < b ==> q[b - 1] in next && next[q[b - 1]] == Nil)
  }

  /** The requests that wait for the writer, in exchange order. */
  ghost predicate Pending(next: map<Req, Link>, full: set<Req>, loc: map<Req, Loc>, l: Line) {
    && |l.who| == |l.q|
    && (forall i :: l.lo <= i < |l.q| ==> l.q[i] in next && l.q[i] in loc && loc[l.q[i]] == Waiting(i))
    && (forall i :: l.lo < i < |l.q| ==> l.q[i] in full)
  }

  /** A request not yet turned round links back, or its producer is about to link it. */
  ghost predicate BackLinks(next: map<Req, Link>, pcs: map<Tid, Pc>, l: Line)
    requires |l.who| == |l.q|
  {
    forall i {:trigger Back(l, i)} :: Back(l, i) ==>
      && l.q[i] in next
      && (|| next[l.q[i]] == To(l.q[i - 1])
          || (next[l.q[i]] == Unconnected && l.who[i] in pcs && pcs[l.who[i]] == Connect(l.q[i], l.q[i - 1], i)))
  }

  ghost predicate Connecting(next: map<Req, Link>, pcs: map<Tid, Pc>, l: Line)
    requires |l.who| == |l.q|
  {
    forall t: Tid :: t in pcs && pcs[t].Connect? ==>
      var i := pcs[t].at;
      && Back(l, i) && l.who[i] == t && pcs[t] == Connect(l.q[i], l.q[i - 1], i)
      && l.q[i] in next && next[l.q[i]] == Unconnected
  }

  ghost predicate Owned(next: map<Req, Link>, full: set<Req>, pcs: map<Tid, Pc>, loc: map<Req, Loc>) {
    && (forall t: Tid :: t in pcs && Mine(pcs[t]).Some? ==>
          var r := Mine(pcs[t]).value;
          r in next && r in loc && loc[r] == Held(t) && (pcs[t].Publish? ==> next[r] == Unconnected && r in full))
  }

  ghost predicate OneWriter(pcs: map<Tid, Pc>, owner: Owner) {
    && (forall t: Tid :: t in pcs ==> (HoldsRight(pcs[t]) <==> owner == Thread(t)))
    && (owner.Thread? ==> owner.t in pcs)
  }

  ghost predicate Locking(pcs: map<Tid, Pc>, mutex: Option<Tid>) {
    && (forall t: Tid :: t in pcs ==> (InLock(pcs[t]) <==> mutex == Some(t)))
    && (mutex.Some? ==> mutex.value in pcs)
    && BG in pcs && RunBy(pcs[BG]) != Producer
    && (forall t: Tid :: t in pcs && t != BG ==> RunBy(pcs[t]) != Background)
  }

  ghost predicate Written(s: State) {
    var l := s.line;
    && |s.log| <= |l.q| && s.log == l.q[..|s.log|]
    && (s.owner.NoOne? ==> s.head == None && l.lo == l.hi == l.m == |l.q| == |s.log| && l.j == |l.q| - 1)
    && (!s.owner.NoOne? ==>
          && l.lo < l.hi <= l.j + 1 <= l.m <= |l.q|
          && s.head == Some(l.q[|l.q| - 1])
          && |s.log| == l.lo + (if l.q[l.lo] in s.full then 0 else 1))
  }

  /** The program point of the thread that holds the right, against the shape of the queue. */
  ghost predicate At(pc: Pc, l: Line, full: set<Req>)
    requires l.lo < l.hi <= l.j + 1 <= l.m <= |l.q|
  {
    var r := l.q[l.lo];
    match pc
    case GotRight(x) => x == r && r in full && l.hi == l.lo + 1 == l.m
    case SyncWrite(x) => x == r && r in full && l.hi == l.lo + 1 == l.m
    case Check(x, _) => x == r && r !in full && l.hi == l.lo + 1 == l.m
    case Reverse(x, p, tail, _) =>
      && x == r && r !in full && l.hi == l.lo + 1 <= l.j < l.m
      && p == l.q[l.j] && tail == if l.j == l.m - 1 then None else Some(l.q[l.j + 1])
    case LinkOld(x, last, _) => x == r && r !in full && l.hi == l.lo + 1 == l.j + 1 < l.m && last == l.q[l.hi]
    case Free(_, x) => x == r && r in full && l.hi == l.m == l.j + 1
    case Lock(x) => x == r && l.hi == l.m == l.j + 1
    case Decide(x) => x == r && l.hi == l.m == l.j + 1
    case HandOff(x) => x == r && l.hi == l.m == l.j + 1
    case Task(x) => x == r && l.hi == l.m == l.j + 1
    case Scan(x) => x == r && l.hi == l.m == l.j + 1
    case _ => false
  }

  ghost predicate Place(s: State) {
    var l := s.line;
    && Written(s)
    && match s.owner
       case NoOne => true
       case HandedOff =>
         s.current == Some(l.q[l.lo]) && l.hi == l.m == l.j + 1 && Forward(s.next, l.q, l.lo, l.hi)
       case Thread(t) =>
         && t in s.pcs && At(s.pcs[t], l, s.full)
         && (!s.pcs[t].GotRight? ==> Forward(s.next, l.q, l.lo, l.hi))
         && Forward(s.next, l.q, l.j + 1, l.m)
  }

  ghost predicate Control(pcs: map<Tid, Pc>, owner: Owner, mutex: Option<Tid>, current: Option<Req>, stop: bool) {
    && OneWriter(pcs, owner)
    && Locking(pcs, mutex)
    && (current.Some? <==> owner.HandedOff? || BgBusy(pcs[BG]))
    && !(owner.HandedOff? && BgBusy(pcs[BG]))
    && (pcs[BG].Exited? ==> stop && current == None && forall t: Tid :: t in pcs ==> !pcs[t].HandOff?)
  }

  ghost predicate Stopping(pc: Pc) {
    pc.StopLock? || pc.StopNotify?
  }

  /** A background thread that waits without having been woken will be if there is a reason to. */
  ghost predicate Wake(pcs: map<Tid, Pc>, mutex: Option<Tid>, current: Option<Req>, stop: bool, signal: bool,
    stopper: Option<Tid>)
    requires BG in pcs
  {
    && (signal ==> pcs[BG].BgWait?)
    && (forall t: Tid :: t in pcs && (Stopping(pcs[t]) || pcs[t].StopUnlock? || pcs[t].Join?) ==> stop)
    && (pcs[BG].BgWait? && !signal ==>
          && (current.Some? ==> mutex.Some? && mutex.value in pcs && pcs[mutex.value].Notify?)
          && (stop ==> stopper.Some? && stopper.value in pcs && Stopping(pcs[stopper.value])))
  }

  ghost predicate Requests(next: map<Req, Link>, full: set<Req>, pcs: map<Tid, Pc>, loc: map<Req, Loc>, l: Line) {
    && loc.Keys == next.Keys
    && Pending(next, full, loc, l)
    && BackLinks(next, pcs, l)
    && Connecting(next, pcs, l)
    && Owned(next, full, pcs, loc)
  }

  // The invariant, as sets of states.

  ghost function Consistent(): iset<State> {
    iset s: State | Requests(s.next, s.full, s.pcs, s.loc, s.line)
  }

  ghost function Placed(): iset<State> {
    iset s: State | Place(s)
  }

  ghost function Controlled(): iset<State> {
    iset s: State | Control(s.pcs, s.owner, s.mutex, s.current, s.stop)
  }

  ghost function Woken(): iset<State> {
    iset s: State | BG in s.pcs && Wake(s.pcs, s.mutex, s.current, s.stop, s.signal, s.stopper)
  }

  ghost predicate Orderly(s: State) {
    !s.fault && s in Consistent() && s in Placed() && s in Controlled()
  }

  ghost predicate Inv(s: State) {
    Orderly(s) && s in Woken()
  }

  // ---- Frame lemmas ----

  lemma ForwardKeep(next: map<Req, Link>, next': map<Req, Link>, q: seq<Req>, q': seq<Req>, a: nat, b: nat)
    requires b <= |q| && q <= q' && Forward(next, q, a, b)
    requires forall i :: a <= i < b ==> q[i] in next' && (q[i] in next ==> next'[q[i]] == next[q[i]])
    ensures Forward(next', q', a, b)
  {
    forall i: nat | a <= i < b - 1
      ensures Linked(next', q', i)
    {
      assert Linked(next, q, i);
    }
  }

  // ---- The right to write, the mutex and the hand-off ----

  ghost predicate Misplaced(pcs: map<Tid, Pc>, owner: Owner, mutex: Option<Tid>, t: Tid, pc: Pc, owner': Owner,
    mutex': Option<Tid>, current': Option<Req>, stop': bool)
  {
    || HoldsRight(pc) != (owner' == Thread(t))
    || !(owner' == owner || ((owner'.Thread? ==> owner'.t == t) && (owner.Thread? ==> owner.t == t)))
    || InLock(pc) != (mutex' == Some(t))
    || !(mutex' == mutex || ((mutex'.Some? ==> mutex'.value == t) && (mutex.Some? ==> mutex.value == t)))
    || RunBy(pc) == (if t == BG then Producer else Background)
    || BG !in pcs[t := pc]
    || current'.Some? != (owner'.HandedOff? || BgBusy(pcs[t := pc][BG]))
    || (owner'.HandedOff? && BgBusy(pcs[t := pc][BG]))
    || (pcs[t := pc][BG].Exited? && !(stop' && current' == None && !pc.HandOff?))
    || (pc.Exited? && mutex != Some(t))
  }

  lemma MoveWriter(pcs: map<Tid, Pc>, owner: Owner, t: Tid, pc: Pc, owner': Owner)
    requires OneWriter(pcs, owner) && HoldsRight(pc) == (owner' == Thread(t))
    requires owner' == owner || ((owner'.Thread? ==> owner'.t == t) && (owner.Thread? ==> owner.t == t))
    ensures OneWriter(pcs[t := pc], owner')
  {
  }

  lemma MoveLock(pcs: map<Tid, Pc>, mutex: Option<Tid>, t: Tid, pc: Pc, mutex': Option<Tid>)
    requires Locking(pcs, mutex) && InLock(pc) == (mutex' == Some(t))
      && RunBy(pc) != (if t == BG then Producer else Background)
    requires mutex' == mutex || ((mutex'.Some? ==> mutex'.value == t) && (mutex.Some? ==> mutex.value == t))
    ensures Locking(pcs[t := pc], mutex')
  {
  }

  /** Thread `t` moves; the right to write and the mutex change hands at most from or to `t`. */
  lemma MoveControl(s: State, t: Tid, s': State, pc: Pc)
    requires s in Controlled() && s'.pcs == s.pcs[t := pc]
    requires !Misplaced(s.pcs, s.owner, s.mutex, t, pc, s'.owner, s'.mutex, s'.current, s'.stop)
    ensures s' in Controlled()
  {
    hide OneWriter, HoldsRight;
    MoveWriter(s.pcs, s.owner, t, pc, s'.owner);
    MoveLock(s.pcs, s.mutex, t, pc, s'.mutex);
    if s'.pcs[BG].Exited? {
      MoveExit(s, t, s', pc);
    }
  }

  /** When the background thread exits it holds the mutex, so that nobody is about to hand off. */
  lemma MoveExit(s: State, t: Tid, s': State, pc: Pc)
    requires s in Controlled() && s'.pcs == s.pcs[t := pc] && BG in s.pcs[t := pc] && s'.pcs[BG].Exited?
    requires !pc.HandOff? && (pc.Exited? ==> s.mutex == Some(t))
    ensures forall u: Tid :: u in s'.pcs ==> !s'.pcs[u].HandOff?
  {
    hide OneWriter, HoldsRight;
  }

  lemma ControlAt(s: State, t: Tid)
    requires s in Controlled() && t in s.pcs
    ensures HoldsRight(s.pcs[t]) <==> s.owner == Thread(t)
    ensures InLock(s.pcs[t]) <==> s.mutex == Some(t)
    ensures RunBy(s.pcs[t]) != if t == BG then Producer else Background
    ensures BG in s.pcs && (s.current.Some? <==> s.owner.HandedOff? || BgBusy(s.pcs[BG]))
    ensures !(s.owner.HandedOff? && BgBusy(s.pcs[BG])) && (s.pcs[BG].Exited? ==> s.stop && s.current == None)
    ensures s.pcs[BG].Exited? ==> !s.pcs[t].HandOff?
    ensures s.mutex == Some(BG) ==> InLock(s.pcs[BG])
    ensures s.owner == Thread(BG) ==> HoldsRight(s.pcs[BG])
  {
  }

  /** Nothing but the program point of `t` matters here. */
  ghost predicate Same(s: State, t: Tid, s': State, pc: Pc) {
    && s'.pcs == s.pcs[t := pc] && s'.mutex == s.mutex && s'.current == s.current
    && s'.stop == s.stop && s'.signal == s.signal && s'.stopper == s.stopper
  }

  lemma StayControl(s: State, t: Tid, s': State, pc: Pc)
    requires s in Controlled() && t in s.pcs && Same(s, t, s', pc) && s'.owner == s.owner
    requires HoldsRight(pc) == HoldsRight(s.pcs[t]) && InLock(pc) == InLock(s.pcs[t])
    requires RunBy(pc) != if t == BG then Producer else Background
    requires t == BG ==> BgBusy(pc) == BgBusy(s.pcs[t]) && !pc.Exited?
    requires !pc.HandOff?
    ensures s' in Controlled()
  {
  }

  lemma AdvanceSame(s: State, t: Tid, r: Req)
    requires !Advance(s, t, r).fault
    ensures var s' := Advance(s, t, r);
      t in s'.pcs && s'.pcs[t].Free? && Same(s, t, s', s'.pcs[t]) && s'.owner == s.owner
  {
  }

  lemma TaskSame(s: State, t: Tid, r: Req)
    requires t in s.pcs && s.pcs[t] == Task(r) && !TaskStep(s, t, r).fault
    ensures var s' := TaskStep(s, t, r);
      t in s'.pcs && Same(s, t, s', s'.pcs[t]) && s'.owner == s.owner && (s'.pcs[t].Free? || s'.pcs[t].Scan?)
  {
    hide Advance;
    if Next(s, r) != Nil && r !in s.full {
      AdvanceSame(s.(fault := s.fault || r !in s.next), t, r);
    }
  }

  lemma ScanSame(s: State, t: Tid, r: Req)
    requires t in s.pcs && s.pcs[t] == Scan(r) && !ScanStep(s, t, r).fault
    ensures var s' := ScanStep(s, t, r);
      && t in s'.pcs && Same(s, t, s', s'.pcs[t]) && s'.owner == s.owner
      && (s'.pcs[t].Free? || (s'.pcs[t].Check? && s'.pcs[t].from.FromTask?))
  {
    hide Advance;
    if Next(s, r) != Nil {
      AdvanceSame(if r in s.full then DoLog(s, r) else s.(fault := s.fault || r !in s.next), t, r);
    }
  }

  lemma CheckSame(s: State, t: Tid, r: Req, from: Caller)
    requires t in s.pcs && s.pcs[t] == Check(r, from) && !CheckStep(s, t, r, from).fault
    ensures var s' := CheckStep(s, t, r, from);
      && t in s'.pcs && Same(s, t, s', s'.pcs[t])
      && ((s'.pcs[t].Reverse? && s'.owner == s.owner) || (s'.pcs[t].Done? && s'.owner == NoOne))
      && s'.pcs[t].from == from
  {
  }

  lemma ReverseSame(s: State, t: Tid, base: Req, p: Req, tail: Option<Req>, from: Caller)
    requires t in s.pcs && s.pcs[t] == Reverse(base, p, tail, from) && !ReverseStep(s, t, base, p, tail, from).fault
    ensures var s' := ReverseStep(s, t, base, p, tail, from);
      && t in s'.pcs && Same(s, t, s', s'.pcs[t]) && s'.owner == s.owner
      && (s'.pcs[t].Reverse? || s'.pcs[t].LinkOld?) && s'.pcs[t].from == from
  {
  }

  lemma LinkSame(s: State, t: Tid, base: Req, last: Req, from: Caller)
    requires t in s.pcs && s.pcs[t] == LinkOld(base, last, from)
    ensures var s' := LinkStep(s, t, base, last, from);
      && Same(s, t, s', s'.pcs[t]) && s'.owner == s.owner
      && if from.FromSync? then s'.pcs[t].Lock? else s'.pcs[t].Task?
  {
  }

  lemma FreeSame(s: State, t: Tid, saved: Req, r: Req)
    requires t in s.pcs && s.pcs[t] == Free(saved, r)
    ensures var s' := Go(ReturnObject(s, saved), t, Scan(r)); Same(s, t, s', Scan(r)) && s'.owner == s.owner
  {
  }

  lemma ProduceControlled(s: State, t: Tid, flag: bool)
    requires s in Controlled() && Enabled(s, t) && t in s.pcs && (s.head == None <==> s.owner == NoOne)
    requires s.pcs[t].Publish? || s.pcs[t].Connect? || s.pcs[t].GotRight? || s.pcs[t].SyncWrite?
    requires !Step(s, t, flag).fault
    ensures Step(s, t, flag) in Controlled()
  {
    hide Control;
    ControlAt(s, t);
    var s' := Step(s, t, flag);
    MoveControl(s, t, s', s'.pcs[t]);
  }

  lemma LockControlled(s: State, t: Tid, flag: bool)
    requires s in Controlled() && Enabled(s, t) && t in s.pcs && (s.head == None <==> s.owner == NoOne)
    requires s.pcs[t].Lock? || s.pcs[t].Decide? || s.pcs[t].HandOff? || s.pcs[t].Notify? || s.pcs[t].Unlock?
    requires !Step(s, t, flag).fault
    ensures Step(s, t, flag) in Controlled()
  {
    hide Control;
    ControlAt(s, t);
    ControlAt(s, BG);
    var s' := Step(s, t, flag);
    MoveControl(s, t, s', s'.pcs[t]);
  }

  lemma CheckControlled(s: State, t: Tid, r: Req, from: Caller)
    requires s in Controlled() && t in s.pcs && s.pcs[t] == Check(r, from) && !CheckStep(s, t, r, from).fault
    ensures CheckStep(s, t, r, from) in Controlled()
  {
    hide Control, CheckStep;
    ControlAt(s, t);
    var s' := CheckStep(s, t, r, from);
    CheckSame(s, t, r, from);
    if s'.pcs[t].Reverse? {
      StayControl(s, t, s', s'.pcs[t]);
    } else {
      MoveControl(s, t, s', s'.pcs[t]);
    }
  }

  lemma ReverseControlled(s: State, t: Tid, base: Req, p: Req, tail: Option<Req>, from: Caller)
    requires s in Controlled() && t in s.pcs && s.pcs[t] == Reverse(base, p, tail, from)
    requires !ReverseStep(s, t, base, p, tail, from).fault
    ensures ReverseStep(s, t, base, p, tail, from) in Controlled()
  {
    hide Control, Same, ReverseStep;
    ControlAt(s, t);
    ReverseSame(s, t, base, p, tail, from);
    var s' := ReverseStep(s, t, base, p, tail, from);
    StayControl(s, t, s', s'.pcs[t]);
  }

  lemma LinkControlled(s: State, t: Tid, base: Req, last: Req, from: Caller)
    requires s in Controlled() && t in s.pcs && s.pcs[t] == LinkOld(base, last, from)
    ensures LinkStep(s, t, base, last, from) in Controlled()
  {
    hide Control, Same, SetNext;
    ControlAt(s, t);
    LinkSame(s, t, base, last, from);
    var s' := LinkStep(s, t, base, last, from);
    StayControl(s, t, s', s'.pcs[t]);
  }

  lemma FreeControlled(s: State, t: Tid, saved: Req, r: Req)
    requires s in Controlled() && t in s.pcs && s.pcs[t] == Free(saved, r)
    ensures Go(ReturnObject(s, saved), t, Scan(r)) in Controlled()
  {
    hide Control, Same, ReturnObject;
    ControlAt(s, t);
    FreeSame(s, t, saved, r);
    StayControl(s, t, Go(ReturnObject(s, saved), t, Scan(r)), Scan(r));
  }

  lemma DoneControlled(s: State, t: Tid, r: Req, from: Caller)
    requires s in Controlled() && t in s.pcs && s.pcs[t] == Done(r, from)
    ensures DoneStep(s, t, r, from) in Controlled()
  {
    hide Control;
    ControlAt(s, t);
    var s' := DoneStep(s, t, r, from);
    MoveControl(s, t, s', s'.pcs[t]);
  }

  lemma TaskControlled(s: State, t: Tid, r: Req)
    requires s in Controlled() && t in s.pcs && s.pcs[t] == Task(r) && !TaskStep(s, t, r).fault
    ensures TaskStep(s, t, r) in Controlled()
  {
    hide Control, Same, TaskStep;
    ControlAt(s, t);
    TaskSame(s, t, r);
    StayControl(s, t, TaskStep(s, t, r), TaskStep(s, t, r).pcs[t]);
  }

  lemma ScanControlled(s: State, t: Tid, r: Req)
    requires s in Controlled() && t in s.pcs && s.pcs[t] == Scan(r) && !ScanStep(s, t, r).fault
    ensures ScanStep(s, t, r) in Controlled()
  {
    hide Control, Same, ScanStep;
    ControlAt(s, t);
    ScanSame(s, t, r);
    StayControl(s, t, ScanStep(s, t, r), ScanStep(s, t, r).pcs[t]);
  }

  lemma TakeControlled(s: State, t: Tid, r: Req)
    requires s in Controlled() && t in s.pcs && s.pcs[t].BgTest? && s.current == Some(r)
    ensures Go(s.(owner := Thread(t)), t, Task(r)) in Controlled()
  {
    hide Control;
    ControlAt(s, t);
    MoveControl(s, t, Go(s.(owner := Thread(t)), t, Task(r)), Task(r));
  }

  lemma LeaveControlled(s: State, t: Tid, pc: Pc)
    requires s in Controlled() && t in s.pcs && s.pcs[t].BgTest? && s.current == None && pc == if s.stop then Exited
      else BgWait
    ensures Go(s.(mutex := None), t, pc) in Controlled()
  {
    hide Control;
    ControlAt(s, t);
    MoveControl(s, t, Go(s.(mutex := None), t, pc), pc);
  }

  lemma TestControlled(s: State, t: Tid)
    requires s in Controlled() && t in s.pcs && s.pcs[t].BgTest?
    ensures BgTestStep(s, t) in Controlled()
  {
    hide Control;
    match s.current
    case Some(r) => TakeControlled(s, t, r);
    case None => LeaveControlled(s, t, if s.stop then Exited else BgWait);
  }

  lemma RunControlled(s: State, t: Tid, flag: bool)
    requires s in Controlled() && Enabled(s, t) && t in s.pcs && (s.head == None <==> s.owner == NoOne)
    requires s.pcs[t].BgLock? || s.pcs[t].BgWait? || s.pcs[t].BgClear? || s.pcs[t].BgUnlock?
    requires !Step(s, t, flag).fault
    ensures Step(s, t, flag) in Controlled()
  {
    hide Control;
    ControlAt(s, t);
    var s' := Step(s, t, flag);
    MoveControl(s, t, s', s'.pcs[t]);
  }

  lemma StopLockControlled(s: State, t: Tid)
    requires s in Controlled() && t in s.pcs && s.pcs[t].StopLock? && s.mutex == None
    ensures Go(s.(mutex := Some(t)), t, StopNotify) in Controlled()
  {
    hide Control;
    ControlAt(s, t);
    MoveControl(s, t, Go(s.(mutex := Some(t)), t, StopNotify), StopNotify);
  }

  lemma StopUnlockControlled(s: State, t: Tid)
    requires s in Controlled() && t in s.pcs && s.pcs[t].StopUnlock?
    ensures Go(s.(mutex := None), t, Join) in Controlled()
  {
    hide Control;
    ControlAt(s, t);
    MoveControl(s, t, Go(s.(mutex := None), t, Join), Join);
  }

  lemma StopControlled(s: State, t: Tid, flag: bool)
    requires s in Controlled() && Enabled(s, t) && t in s.pcs
    requires s.pcs[t].StopLock? || s.pcs[t].StopNotify? || s.pcs[t].StopUnlock? || s.pcs[t].Join?
    ensures Step(s, t, flag) in Controlled()
  {
    hide Control;
    ControlAt(s, t);
    match s.pcs[t]
    case StopLock => StopLockControlled(s, t);
    case StopNotify =>
      StayControl(s, t, Go(s, t, StopUnlock), StopUnlock);
      SignalControlled(s, t, StopUnlock);
    case StopUnlock => StopUnlockControlled(s, t);
    case Join => StayControl(s, t, Go(s, t, Idle), Idle);
  }

  lemma SignalControlled(s: State, t: Tid, pc: Pc)
    requires Go(s, t, pc) in Controlled()
    ensures Go(Signal(s), t, pc) in Controlled()
  {
  }

  // ---- Waking the background thread ----

  /** A step that neither signals nor gives a reason to. */
  ghost predicate Quiet(s: State, t: Tid, s': State, pc: Pc) {
    && s'.pcs == s.pcs[t := pc] && s'.stop == s.stop && s'.stopper == s.stopper
    && (t == BG || s'.signal == s.signal) && (s'.current.Some? ==> s.current.Some?)
    && (s'.mutex == s.mutex || s.mutex == None || s.mutex == Some(t))
  }

  /** Another thread does something that has nothing to do with waking. */
  lemma QuietWoken(s: State, t: Tid, s': State, pc: Pc)
    requires s in Controlled() && s in Woken() && t in s.pcs && t != BG && Quiet(s, t, s', pc)
    requires !s.pcs[t].Notify? && !Stopping(s.pcs[t]) && !Stopping(pc) && !pc.StopUnlock?
    requires pc.Join? ==> s.pcs[t].StopUnlock?
    ensures s' in Woken()
  {
  }

  /** The background thread itself moves. */
  lemma RunWoken(s: State, s': State, pc: Pc)
    requires s in Woken() && s'.pcs == s.pcs[BG := pc] && s'.stop == s.stop && s'.stopper == s.stopper && !s'.signal
    requires RunBy(pc) != Producer && (pc.BgWait? ==> s'.current == None && !s'.stop)
    ensures s' in Woken()
  {
  }

  lemma SignalWoken(s: State, t: Tid, pc: Pc)
    requires s in Woken() && t in s.pcs && t != BG && !Stopping(pc) && !pc.Join?
      && (pc.StopUnlock? ==> Stopping(s.pcs[t]))
    ensures Go(Signal(s), t, pc) in Woken()
  {
  }

  lemma HandOffWoken(s: State, t: Tid, r: Req)
    requires s in Controlled() && s in Woken() && t in s.pcs && t != BG && s.pcs[t] == HandOff(r)
    ensures Step(s, t, false) in Woken()
  {
  }

  lemma StopLockWoken(s: State, t: Tid)
    requires s in Controlled() && s in Woken() && t in s.pcs && t != BG && s.pcs[t].StopLock? && s.mutex == None
    ensures Step(s, t, false) in Woken()
  {
  }

  lemma StopWoken(s: State, t: Tid)
    requires s in Controlled() && s in Woken() && t != BG && PcOf(s, t) == Idle
    ensures Stop(s, t) in Woken()
  {
  }

  // ---- Where every request is and how it is linked ----

  /** A thread moves on without connecting, publishing or giving up a request. */
  lemma MoveRequests(next: map<Req, Link>, full: set<Req>, pcs: map<Tid, Pc>, loc: map<Req, Loc>, l: Line, t: Tid,
    pc: Pc)
    requires Requests(next, full, pcs, loc, l)
    requires !(t in pcs && pcs[t].Connect?) && !pc.Connect? && !pc.Publish?
    requires Mine(pc) == None || (t in pcs && Mine(pc) == Mine(pcs[t]))
    ensures Requests(next, full, pcs[t := pc], loc, l)
  {
  }

  lemma BeginRequests(next: map<Req, Link>, full: set<Req>, pcs: map<Tid, Pc>, loc: map<Req, Loc>, l: Line, t: Tid,
    r: Req)
    requires Requests(next, full, pcs, loc, l) && r !in next && !(t in pcs && pcs[t].Connect?)
    ensures Requests(next[r := Unconnected], full + {r}, pcs[t := Publish(r)], loc[r := Held(t)], l)
  {
  }

  lemma FirstRequests(next: map<Req, Link>, full: set<Req>, pcs: map<Tid, Pc>, loc: map<Req, Loc>, l: Line, t: Tid,
    r: Req)
    requires Requests(next, full, pcs, loc, l) && t in pcs && pcs[t] == Publish(r) && l.lo == |l.q|
    ensures var n := |l.q|;
      Requests(next, full, pcs[t := GotRight(r)], loc[r := Waiting(n)],
        Line(l.q + [r], l.who + [t], n, n + 1, n, n + 1))
  {
  }

  lemma ExchangeRequests(next: map<Req, Link>, full: set<Req>, pcs: map<Tid, Pc>, loc: map<Req, Loc>, l: Line, t: Tid,
    r: Req)
    requires Requests(next, full, pcs, loc, l) && t in pcs && pcs[t] == Publish(r)
      && l.lo < l.hi <= l.j + 1 <= l.m <= |l.q|
    ensures var n := |l.q|;
      Requests(next, full, pcs[t := Connect(r, l.q[n - 1], n)], loc[r := Waiting(n)],
        l.(q := l.q + [r], who := l.who + [t]))
  {
    var l' := l.(q := l.q + [r], who := l.who + [t]);
    assert forall i :: i != |l.q| ==> Back(l', i) == Back(l, i);
  }

  lemma ConnectRequests(next: map<Req, Link>, full: set<Req>, pcs: map<Tid, Pc>, loc: map<Req, Loc>, l: Line, t: Tid)
    requires Requests(next, full, pcs, loc, l) && t in pcs && pcs[t].Connect?
    ensures Requests(next[pcs[t].req := To(pcs[t].prev)], full, pcs[t := Idle], loc, l)
  {
  }

  /** The writer stores into the `next` of a request that is not waiting to be turned round. */
  lemma StoreRequests(next: map<Req, Link>, full: set<Req>, pcs: map<Tid, Pc>, loc: map<Req, Loc>, l: Line, i: nat,
    link: Link)
    requires Requests(next, full, pcs, loc, l) && l.lo <= i < |l.q| && !Back(l, i)
    ensures Requests(next[l.q[i] := link], full, pcs, loc, l)
  {
  }

  lemma SameBackRequests(next: map<Req, Link>, full: set<Req>, pcs: map<Tid, Pc>, loc: map<Req, Loc>, l: Line, l': Line)
    requires Requests(next, full, pcs, loc, l)
    requires l'.q == l.q && l'.who == l.who && l'.lo == l.lo
    requires forall i :: Back(l', i) ==> Back(l, i)
    requires forall i :: Back(l, i) && l.q[i] in next && next[l.q[i]] == Unconnected ==> Back(l', i)
    ensures Requests(next, full, pcs, loc, l')
  {
  }

  lemma ClearRequests(next: map<Req, Link>, full: set<Req>, pcs: map<Tid, Pc>, loc: map<Req, Loc>, l: Line)
    requires Requests(next, full, pcs, loc, l) && l.lo < |l.q|
    ensures Requests(next, full - {l.q[l.lo]}, pcs, loc, l)
  {
  }

  lemma ReturnRequests(next: map<Req, Link>, full: set<Req>, pcs: map<Tid, Pc>, loc: map<Req, Loc>, l: Line, t: Tid,
    r: Req, pc: Pc)
    requires Requests(next, full, pcs, loc, l) && t in pcs && Mine(pcs[t]) == Some(r) && !pcs[t].Publish?
    requires Mine(pc) == None && !pc.Connect?
    ensures Requests(next - {r}, full - {r}, pcs[t := pc], loc - {r}, l)
  {
  }

  /** The writer takes the request at `lo` into its own hands; `l'` starts behind it. */
  lemma TakeRequests(next: map<Req, Link>, full: set<Req>, pcs: map<Tid, Pc>, loc: map<Req, Loc>, l: Line, t: Tid,
    pc: Pc, l': Line)
    requires Requests(next, full, pcs, loc, l) && l.lo < |l.q|
    requires t in pcs && Mine(pcs[t]) == None && !pcs[t].Connect?
    requires Mine(pc) == Some(l.q[l.lo]) && !pc.Publish?
    requires l'.q == l.q && l'.who == l.who && l'.lo == l.lo + 1
    requires forall i :: Back(l', i) == Back(l, i)
    ensures Requests(next, full, pcs[t := pc], loc[l.q[l.lo] := Held(t)], l')
  {
  }

  // ---- Where the writer is ----

  /** Lists the writer owns survive when their requests keep their `next`. */
  lemma KeepPlace(s: State, s': State)
    requires s in Placed() && Written(s')
    requires s'.owner == s.owner && s'.line.lo == s.line.lo && s'.line.hi == s.line.hi && s'.line.j == s.line.j
      && s'.line.m == s.line.m
    requires s.line.q <= s'.line.q && (s.owner.HandedOff? ==> s'.current == s.current)
    requires s.owner.Thread? ==>
      s.owner.t in s'.pcs && s'.pcs[s.owner.t] == s.pcs[s.owner.t] && At(s.pcs[s.owner.t], s'.line, s'.full)
    requires forall i :: s.line.lo <= i < |s.line.q| && !Back(s.line, i) ==>
      s.line.q[i] in s'.next && (s.line.q[i] in s.next ==> s'.next[s.line.q[i]] == s.next[s.line.q[i]])
    ensures s' in Placed()
  {
    if s.owner.HandedOff? || (s.owner.Thread? && !s.pcs[s.owner.t].GotRight?) {
      ForwardKeep(s.next, s'.next, s.line.q, s'.line.q, s.line.lo, s.line.hi);
    }
    if s.owner.Thread? {
      ForwardKeep(s.next, s'.next, s.line.q, s'.line.q, s.line.j + 1, s.line.m);
    }
  }

  lemma BeginPlaced(s: State, t: Tid, r: Req)
    requires s in Placed() && r !in s.next && s.owner != Thread(t)
    requires Pending(s.next, s.full, s.loc, s.line)
    ensures Begin(s, t, r) in Placed()
  {
    KeepPlace(s, Begin(s, t, r));
  }

  lemma ExchangePlaced(s: State, t: Tid, r: Req)
    requires s in Placed() && r in s.full && r in s.next && s.owner != Thread(t)
    requires Pending(s.next, s.full, s.loc, s.line)
    ensures Exchange(s, t, r) in Placed()
  {
    if s.owner != NoOne {
      KeepPlace(s, Exchange(s, t, r));
    }
  }

  lemma RightPlaced(s: State, t: Tid, r: Req, flag: bool)
    requires s in Placed() && s.owner == Thread(t) && s.pcs[t] == GotRight(r)
    ensures StoreRight(s, t, r, flag) in Placed()
  {
  }

  lemma SyncWritePlaced(s: State, t: Tid, r: Req)
    requires s in Placed() && s.owner == Thread(t) && s.pcs[t] == SyncWrite(r)
    ensures Go(DoLog(s, r), t, Check(r, FromSync)) in Placed()
  {
  }

  lemma MovePlaced(s: State, t: Tid, flag: bool)
    requires s in Placed() && s.owner == Thread(t) && (s.pcs[t].Lock? || s.pcs[t].Decide? || s.pcs[t].HandOff?)
    ensures Step(s, t, flag) in Placed()
  {
  }

  lemma TestPlaced(s: State, t: Tid)
    requires s in Placed() && (s.current.Some? <==> s.owner.HandedOff?) && t in s.pcs && s.owner != Thread(t)
    ensures BgTestStep(s, t) in Placed()
  {
  }

  lemma CheckPlaced(s: State, t: Tid, r: Req, from: Caller)
    requires s in Placed() && s.owner == Thread(t) && s.pcs[t] == Check(r, from)
    requires forall i :: s.line.lo < i < |s.line.q| ==> s.line.q[i] != r
    ensures CheckStep(s, t, r, from) in Placed()
  {
  }

  /** Storing `tail` into the `next` of the request at `j` adds it to the front of the turned list. */
  lemma TurnForward(next: map<Req, Link>, full: set<Req>, loc: map<Req, Loc>, l: Line, tail: Option<Req>)
    requires Pending(next, full, loc, l) && l.lo + 1 == l.hi <= l.j < l.m <= |l.q|
    requires Forward(next, l.q, l.lo, l.hi) && Forward(next, l.q, l.j + 1, l.m)
    requires tail == if l.j == l.m - 1 then None else Some(l.q[l.j + 1])
    ensures var next' := next[l.q[l.j] := if tail == None then Nil else To(tail.value)];
      Forward(next', l.q, l.lo, l.hi) && Forward(next', l.q, l.j, l.m)
  {
    var next' := next[l.q[l.j] := if tail == None then Nil else To(tail.value)];
    ForwardKeep(next, next', l.q, l.q, l.lo, l.hi);
    ForwardKeep(next, next', l.q, l.q, l.j + 1, l.m);
    assert l.j < l.m - 1 ==> Linked(next', l.q, l.j);
  }

  lemma ReverseWritten(s: State, t: Tid, base: Req, p: Req, tail: Option<Req>, from: Caller)
    requires s in Placed() && s.owner == Thread(t) && s.pcs[t] == Reverse(base, p, tail, from)
    requires Pending(s.next, s.full, s.loc, s.line)
    requires Next(s, p) == To(s.line.q[s.line.j - 1]) && (s.line.q[s.line.j - 1] == base <==> s.line.j - 1 == s.line.lo)
    ensures Written(ReverseStep(s, t, base, p, tail, from))
  {
    hide Forward;
  }

  lemma ReverseLine(s: State, t: Tid, base: Req, p: Req, tail: Option<Req>, from: Caller)
    requires Next(s, p).To?
    ensures var s' := ReverseStep(s, t, base, p, tail, from);
      && s'.line == s.line.(j := s.line.j - 1) && s'.owner == s.owner && s'.full == s.full
      && s'.next == s.next[p := if tail == None then Nil else To(tail.value)]
      && s'.pcs == s.pcs[t := if Next(s, p).req == base then LinkOld(base, p, from)
        else Reverse(base, Next(s, p).req, Some(p), from)]
  {
  }

  lemma ReversePlaced(s: State, t: Tid, base: Req, p: Req, tail: Option<Req>, from: Caller)
    requires s in Placed() && s.owner == Thread(t) && s.pcs[t] == Reverse(base, p, tail, from)
    requires Pending(s.next, s.full, s.loc, s.line)
    requires Next(s, p) == To(s.line.q[s.line.j - 1]) && (s.line.q[s.line.j - 1] == base <==> s.line.j - 1 == s.line.lo)
    ensures ReverseStep(s, t, base, p, tail, from) in Placed()
  {
    hide Forward, ReverseStep;
    TurnForward(s.next, s.full, s.loc, s.line, tail);
    ReverseWritten(s, t, base, p, tail, from);
    ReverseLine(s, t, base, p, tail, from);
    var s' := ReverseStep(s, t, base, p, tail, from);
    assert s'.line.j + 1 == s.line.j;
  }

  lemma ForwardCons(next: map<Req, Link>, q: seq<Req>, a: nat, b: nat)
    requires a + 1 < b <= |q| && Forward(next, q, a + 1, b) && q[a] in next && next[q[a]] == To(q[a + 1])
    ensures Forward(next, q, a, b)
  {
    assert Linked(next, q, a);
  }

  lemma ForwardTail(next: map<Req, Link>, q: seq<Req>, a: nat, b: nat)
    requires a < b <= |q| && Forward(next, q, a, b)
    ensures q[a] in next && next[q[a]] == (if a + 1 < b then To(q[a + 1]) else Nil)
    ensures Forward(next, q, a + 1, b)
  {
    assert a + 1 < b ==> Linked(next, q, a);
  }

  lemma LinkPlaced(s: State, t: Tid, base: Req, last: Req, from: Caller)
    requires s in Placed() && s.owner == Thread(t) && s.pcs[t] == LinkOld(base, last, from)
    requires Pending(s.next, s.full, s.loc, s.line)
    ensures LinkStep(s, t, base, last, from) in Placed()
  {
    hide Forward;
    var l, s' := s.line, LinkStep(s, t, base, last, from);
    LinkForward(s, t, base, last, from);
    ForwardCons(s'.next, l.q, l.lo, l.m);
    ForwardEnd(s'.next, l.q, l.m);
  }

  lemma ForwardEnd(next: map<Req, Link>, q: seq<Req>, b: nat)
    requires b <= |q|
    ensures Forward(next, q, b, b)
  {
  }

  lemma LinkForward(s: State, t: Tid, base: Req, last: Req, from: Caller)
    requires s in Placed() && s.owner == Thread(t) && s.pcs[t] == LinkOld(base, last, from)
    requires Pending(s.next, s.full, s.loc, s.line)
    ensures var l := s.line;
      l.lo + 1 < l.m <= |l.q| && Forward(LinkStep(s, t, base, last, from).next, l.q, l.lo + 1, l.m)
  {
    var l, s' := s.line, LinkStep(s, t, base, last, from);
    ForwardKeep(s.next, s'.next, l.q, l.q, l.j + 1, l.m);
  }

  lemma FreePlaced(s: State, t: Tid, saved: Req, r: Req)
    requires s in Placed() && s.owner == Thread(t) && s.pcs[t] == Free(saved, r)
    requires forall i :: s.line.lo <= i < |s.line.q| ==> s.line.q[i] != saved && s.line.q[i] in s.next
    ensures Go(ReturnObject(s, saved), t, Scan(r)) in Placed()
  {
    var l, s' := s.line, Go(ReturnObject(s, saved), t, Scan(r));
    ForwardKeep(s.next, s'.next, l.q, l.q, l.lo, l.hi);
  }

  /** In LogTask, the next request of the list is the one exchanged next. */
  lemma AdvancePlaced(s: State, t: Tid, r: Req)
    requires s in Placed() && s.owner == Thread(t) && (s.pcs[t] == Task(r) || s.pcs[t] == Scan(r))
    requires r !in s.full && Next(s, r) != Nil && Pending(s.next, s.full, s.loc, s.line)
    ensures Advance(s, t, r) in Placed() && Next(s, r).To?
  {
    hide Forward;
    ForwardTail(s.next, s.line.q, s.line.lo, s.line.hi);
    ForwardEnd(s.next, s.line.q, s.line.m);
  }

  /** The last request of the list has been written: only then IsLogComplete is called. */
  lemma ScanPlaced(s: State, t: Tid, r: Req)
    requires s in Placed() && s.owner == Thread(t) && s.pcs[t] == Scan(r) && Next(s, r) == Nil && r in s.next
    ensures ScanStep(s, t, r) in Placed()
  {
    hide Forward;
    ForwardTail(s.next, s.line.q, s.line.lo, s.line.hi);
  }

  // ---- Every step keeps the invariant ----

  lemma BeginControlled(s: State, t: Tid, r: Req)
    requires s in Controlled() && t != BG && PcOf(s, t) == Idle
    ensures Begin(s, t, r) in Controlled()
  {
    MoveControl(s, t, Begin(s, t, r), Publish(r));
  }

  lemma BeginKeeps(s: State, t: Tid, r: Req)
    requires Orderly(s) && t != BG && PcOf(s, t) == Idle && r !in s.next
    ensures Orderly(Begin(s, t, r))
  {
    BeginRequests(s.next, s.full, s.pcs, s.loc, s.line, t, r);
    BeginPlaced(s, t, r);
    BeginControlled(s, t, r);
  }

  lemma StopOrderly(s: State, t: Tid)
    requires Orderly(s) && t != BG && PcOf(s, t) == Idle
    ensures Orderly(Stop(s, t))
  {
    hide Requests, Place, Control;
    var s' := Stop(s, t);
    NotOwner(s, t);
    MoveRequests(s.next, s.full, s.pcs, s.loc, s.line, t, s'.pcs[t]);
    SamePlace(s, t, s', s'.pcs[t]);
    StopControl(s, t);
  }

  lemma NotOwner(s: State, t: Tid)
    requires s in Controlled() && PcOf(s, t) == Idle
    ensures s.owner != Thread(t)
  {
  }

  lemma StopControl(s: State, t: Tid)
    requires s in Controlled() && t != BG && PcOf(s, t) == Idle
    ensures Stop(s, t) in Controlled()
  {
    hide Control;
    RestControlled(s, t, if s.stop then Join else StopLock);
    if !s.stop {
      SetStopControlled(Go(s, t, StopLock), t);
    }
  }

  lemma RestControlled(s: State, t: Tid, pc: Pc)
    requires s in Controlled() && t != BG && PcOf(s, t) == Idle && (pc.Join? || pc.StopLock?)
    ensures Go(s, t, pc) in Controlled()
  {
    MoveControl(s, t, Go(s, t, pc), pc);
  }

  lemma SetStopControlled(s: State, t: Tid)
    requires s in Controlled()
    ensures s.(stop := true, stopper := Some(t)) in Controlled()
  {
  }

  lemma ExchangeFacts(s: State, t: Tid, r: Req)
    requires Orderly(s) && t in s.pcs && s.pcs[t] == Publish(r)
    ensures r in s.full && r in s.next && s.owner != Thread(t) && Pending(s.next, s.full, s.loc, s.line)
    ensures (s.head == None <==> s.owner == NoOne) && (s.owner == NoOne ==> s.line.lo == |s.line.q|)
    ensures s.owner != NoOne ==> s.line.lo < s.line.hi <= s.line.j + 1 <= s.line.m <= |s.line.q|
    ensures s.owner != NoOne ==> s.head == Some(s.line.q[|s.line.q| - 1])
  {
    assert Mine(s.pcs[t]) == Some(r);
  }

  lemma ExchangeKeeps(s: State, t: Tid, r: Req)
    requires Orderly(s) && t in s.pcs && s.pcs[t] == Publish(r)
    ensures Orderly(Exchange(s, t, r))
  {
    hide Requests, Place, Control;
    ExchangeFacts(s, t, r);
    if s.owner == NoOne {
      FirstRequests(s.next, s.full, s.pcs, s.loc, s.line, t, r);
    } else {
      ExchangeRequests(s.next, s.full, s.pcs, s.loc, s.line, t, r);
    }
    ExchangePlaced(s, t, r);
    ProduceControlled(s, t, false);
  }

  lemma ConnectKeeps(s: State, t: Tid, flag: bool)
    requires Orderly(s) && t in s.pcs && s.pcs[t].Connect?
    ensures Orderly(Step(s, t, flag))
  {
    ConnectRequests(s.next, s.full, s.pcs, s.loc, s.line, t);
    KeepPlace(s, Step(s, t, flag));
    ProduceControlled(s, t, flag);
  }

  lemma RightKeeps(s: State, t: Tid, r: Req, flag: bool)
    requires Orderly(s) && t in s.pcs && s.pcs[t] == GotRight(r)
    ensures Orderly(StoreRight(s, t, r, flag))
  {
    var s' := StoreRight(s, t, r, flag);
    StoreRequests(s.next, s.full, s.pcs, s.loc, s.line, s.line.lo, Nil);
    MoveRequests(s'.next, s.full, s.pcs, s.loc, s.line, t, s'.pcs[t]);
    RightPlaced(s, t, r, flag);
    ProduceControlled(s, t, flag);
  }

  lemma SyncWriteKeeps(s: State, t: Tid, r: Req)
    requires Orderly(s) && t in s.pcs && s.pcs[t] == SyncWrite(r)
    ensures Orderly(Go(DoLog(s, r), t, Check(r, FromSync)))
  {
    ClearRequests(s.next, s.full, s.pcs, s.loc, s.line);
    MoveRequests(s.next, s.full - {r}, s.pcs, s.loc, s.line, t, Check(r, FromSync));
    SyncWritePlaced(s, t, r);
    ProduceControlled(s, t, false);
  }

  lemma LockKeeps(s: State, t: Tid, flag: bool)
    requires Orderly(s) && t in s.pcs && Enabled(s, t) && (s.pcs[t].Lock? || s.pcs[t].Decide? || s.pcs[t].HandOff?)
    ensures Orderly(Step(s, t, flag))
  {
    MoveRequests(s.next, s.full, s.pcs, s.loc, s.line, t, Step(s, t, flag).pcs[t]);
    MovePlaced(s, t, flag);
    LockControlled(s, t, flag);
  }

  /** The queue and the writer are as they were. */
  lemma SamePlace(s: State, t: Tid, s': State, pc: Pc)
    requires s in Placed() && s.owner != Thread(t) && s'.pcs == s.pcs[t := pc]
      && (s.owner.HandedOff? ==> s'.current == s.current)
    requires s'.line == s.line && s'.next == s.next && s'.full == s.full && s'.head == s.head && s'.log == s.log
    requires s'.owner == s.owner
    ensures s' in Placed()
  {
    hide Forward, At;
  }

  lemma ControlsBg(s: State)
    requires s in Controlled()
    ensures BG in s.pcs && (s.pcs[BG].BgClear? ==> !s.owner.HandedOff?)
  {
  }

  lemma HeadFacts(s: State)
    requires s in Placed()
    ensures s.head == None <==> s.owner == NoOne
  {
  }

  lemma UnlockKeeps(s: State, t: Tid, flag: bool)
    requires Orderly(s) && t in s.pcs && Enabled(s, t)
    requires var pc := s.pcs[t];
      || pc.Notify? || pc.Unlock? || pc.BgLock? || pc.BgWait? || pc.BgClear? || pc.BgUnlock?
      || pc.StopLock? || pc.StopNotify? || pc.StopUnlock? || pc.Join?
    ensures Orderly(Step(s, t, flag))
  {
    hide Requests, Place, Control;
    var s' := Step(s, t, flag);
    ControlAt(s, t);
    ControlsBg(s);
    HeadFacts(s);
    MoveRequests(s.next, s.full, s.pcs, s.loc, s.line, t, s'.pcs[t]);
    SamePlace(s, t, s', s'.pcs[t]);
    if s.pcs[t].Unlock? || s.pcs[t].Notify? {
      LockControlled(s, t, flag);
    } else if RunBy(s.pcs[t]) == Background {
      RunControlled(s, t, flag);
    } else {
      StopControlled(s, t, flag);
    }
  }

  lemma TestKeeps(s: State, t: Tid)
    requires Orderly(s) && t in s.pcs && s.pcs[t].BgTest?
    ensures Orderly(BgTestStep(s, t))
  {
    MoveRequests(s.next, s.full, s.pcs, s.loc, s.line, t, BgTestStep(s, t).pcs[t]);
    TestPlaced(s, t);
    TestControlled(s, t);
  }

  lemma CheckConsistent(s: State, t: Tid, r: Req, from: Caller)
    requires s in Consistent() && s in Placed() && s.owner == Thread(t) && s.pcs[t] == Check(r, from)
    ensures CheckStep(s, t, r, from) in Consistent()
  {
    var s' := CheckStep(s, t, r, from);
    if s.head == Some(r) {
      TakeRequests(s.next, s.full, s.pcs, s.loc, s.line, t, s'.pcs[t], s'.line);
    } else {
      SameBackRequests(s.next, s.full, s.pcs, s.loc, s.line, s'.line);
      MoveRequests(s.next, s.full, s.pcs, s.loc, s'.line, t, s'.pcs[t]);
    }
  }

  lemma CheckFacts(s: State, t: Tid, r: Req, from: Caller)
    requires s in Consistent() && s in Placed() && s.owner == Thread(t) && t in s.pcs && s.pcs[t] == Check(r, from)
      && !s.fault
    ensures !CheckStep(s, t, r, from).fault
    ensures forall i :: s.line.lo < i < |s.line.q| ==> s.line.q[i] != r
  {
    var l := s.line;
    assert forall i :: l.lo <= i < |l.q| ==> s.loc[l.q[i]] == Waiting(i);
  }

  lemma CheckKeeps(s: State, t: Tid, r: Req, from: Caller)
    requires Orderly(s) && t in s.pcs && s.pcs[t] == Check(r, from)
    ensures Orderly(CheckStep(s, t, r, from))
  {
    hide Requests, Place, Control, CheckStep;
    ControlAt(s, t);
    CheckFacts(s, t, r, from);
    CheckConsistent(s, t, r, from);
    CheckPlaced(s, t, r, from);
    CheckControlled(s, t, r, from);
  }

  lemma ReverseFacts(s: State, t: Tid, base: Req, p: Req, tail: Option<Req>, from: Caller)
    requires t in s.pcs && s in Consistent() && s in Placed() && s.owner == Thread(t)
      && s.pcs[t] == Reverse(base, p, tail, from)
    requires Enabled(s, t)
    ensures s.line.lo + 1 == s.line.hi <= s.line.j < s.line.m <= |s.line.q| && p == s.line.q[s.line.j] && p in s.next
    ensures Next(s, p) == To(s.line.q[s.line.j - 1])
  {
    assert Back(s.line, s.line.j);
  }

  lemma ReverseConsistent(s: State, t: Tid, base: Req, p: Req, tail: Option<Req>, from: Caller)
    requires t in s.pcs && s in Consistent() && s in Placed() && s.owner == Thread(t)
      && s.pcs[t] == Reverse(base, p, tail, from)
    requires Enabled(s, t)
    ensures ReverseStep(s, t, base, p, tail, from) in Consistent()
    ensures Next(s, p) == To(s.line.q[s.line.j - 1])
  {
    hide Requests, Place;
    ReverseFacts(s, t, base, p, tail, from);
    var s' := ReverseStep(s, t, base, p, tail, from);
    SameBackRequests(s.next, s.full, s.pcs, s.loc, s.line, s'.line);
    StoreRequests(s.next, s.full, s.pcs, s.loc, s'.line, s.line.j, if tail == None then Nil else To(tail.value));
    MoveRequests(s'.next, s.full, s.pcs, s.loc, s'.line, t, s'.pcs[t]);
  }

  lemma ReverseFaultless(s: State, t: Tid, base: Req, p: Req, tail: Option<Req>, from: Caller)
    requires Orderly(s) && Enabled(s, t) && t in s.pcs && s.pcs[t] == Reverse(base, p, tail, from)
      && s.owner == Thread(t)
    ensures !ReverseStep(s, t, base, p, tail, from).fault && Pending(s.next, s.full, s.loc, s.line)
    ensures (s.head == None <==> s.owner == NoOne)
    ensures var l := s.line; l.lo < l.j < |l.q| && (l.q[l.j - 1] == base <==> l.j - 1 == l.lo)
  {
    hide Forward, Control;
    ReverseFacts(s, t, base, p, tail, from);
    var l := s.line;
    assert s.loc[l.q[l.j - 1]] == Waiting(l.j - 1) && s.loc[l.q[l.lo]] == Waiting(l.lo);
  }

  lemma ReverseKeeps(s: State, t: Tid, base: Req, p: Req, tail: Option<Req>, from: Caller)
    requires Orderly(s) && Enabled(s, t) && t in s.pcs && s.pcs[t] == Reverse(base, p, tail, from)
    ensures Orderly(ReverseStep(s, t, base, p, tail, from))
  {
    hide Requests, Control;
    ControlAt(s, t);
    ReverseConsistent(s, t, base, p, tail, from);
    ReverseFaultless(s, t, base, p, tail, from);
    ReversePlaced(s, t, base, p, tail, from);
    ReverseControlled(s, t, base, p, tail, from);
  }

  lemma LinkKeeps(s: State, t: Tid, base: Req, last: Req, from: Caller)
    requires Orderly(s) && t in s.pcs && s.pcs[t] == LinkOld(base, last, from)
    ensures Orderly(LinkStep(s, t, base, last, from))
  {
    var s' := LinkStep(s, t, base, last, from);
    StoreRequests(s.next, s.full, s.pcs, s.loc, s.line, s.line.lo, To(last));
    SameBackRequests(s'.next, s.full, s.pcs, s.loc, s.line, s'.line);
    MoveRequests(s'.next, s.full, s.pcs, s.loc, s'.line, t, s'.pcs[t]);
    LinkPlaced(s, t, base, last, from);
    LinkControlled(s, t, base, last, from);
  }

  lemma DonePlaced(s: State, t: Tid, r: Req, from: Caller)
    requires s in Placed() && s in Consistent() && t in s.pcs && s.pcs[t] == Done(r, from) && s.owner != Thread(t)
    ensures DoneStep(s, t, r, from) in Placed() && r in s.next
  {
    hide Forward;
    assert Mine(s.pcs[t]) == Some(r);
    KeepPlace(s, DoneStep(s, t, r, from));
  }

  lemma DoneKeeps(s: State, t: Tid, r: Req, from: Caller)
    requires Orderly(s) && t in s.pcs && s.pcs[t] == Done(r, from)
    ensures Orderly(DoneStep(s, t, r, from))
  {
    hide Requests, Place, Control;
    ControlAt(s, t);
    ReturnRequests(s.next, s.full, s.pcs, s.loc, s.line, t, r, DoneStep(s, t, r, from).pcs[t]);
    DonePlaced(s, t, r, from);
    DoneControlled(s, t, r, from);
  }

  lemma FreeKeeps(s: State, t: Tid, saved: Req, r: Req)
    requires Orderly(s) && t in s.pcs && s.pcs[t] == Free(saved, r)
    ensures Orderly(Go(ReturnObject(s, saved), t, Scan(r)))
  {
    ReturnRequests(s.next, s.full, s.pcs, s.loc, s.line, t, saved, Scan(r));
    FreePlaced(s, t, saved, r);
    FreeControlled(s, t, saved, r);
  }

  lemma AdvanceKeeps(s: State, t: Tid, r: Req)
    requires !s.fault && s in Consistent() && s in Placed() && s.owner == Thread(t)
    requires t in s.pcs && (s.pcs[t] == Task(r) || s.pcs[t] == Scan(r)) && r !in s.full && Next(s, r) != Nil
    ensures !Advance(s, t, r).fault && Advance(s, t, r) in Consistent() && Advance(s, t, r) in Placed()
  {
    AdvancePlaced(s, t, r);
    TakeRequests(s.next, s.full, s.pcs, s.loc, s.line, t, Advance(s, t, r).pcs[t], Advance(s, t, r).line);
  }

  lemma ScanNext(s: State, t: Tid, r: Req)
    requires s in Placed() && s.owner == Thread(t) && s.pcs[t] == Task(r)
    ensures Go(s, t, Scan(r)) in Placed()
  {
    hide Forward;
  }

  lemma TaskFacts(s: State, t: Tid, r: Req)
    requires s in Placed() && s in Consistent() && s.owner == Thread(t) && t in s.pcs
      && (s.pcs[t] == Task(r) || s.pcs[t] == Scan(r))
    ensures r in s.next && (s.head == None <==> s.owner == NoOne)
  {
  }

  lemma TaskKeeps(s: State, t: Tid, r: Req)
    requires Orderly(s) && t in s.pcs && s.pcs[t] == Task(r)
    ensures Orderly(TaskStep(s, t, r))
  {
    hide Requests, Place, Control;
    ControlAt(s, t);
    TaskFacts(s, t, r);
    if Next(s, r) != Nil && r !in s.full {
      AdvanceKeeps(s, t, r);
    } else {
      MoveRequests(s.next, s.full, s.pcs, s.loc, s.line, t, Scan(r));
      ScanNext(s, t, r);
    }
    TaskControlled(s, t, r);
  }

  lemma ScanKeeps(s: State, t: Tid, r: Req)
    requires Orderly(s) && t in s.pcs && s.pcs[t] == Scan(r)
    ensures Orderly(ScanStep(s, t, r))
  {
    var w := if r in s.full then DoLog(s, r) else s;
    if r in s.full {
      ClearRequests(s.next, s.full, s.pcs, s.loc, s.line);
    }
    if Next(s, r) != Nil {
      AdvanceKeeps(w, t, r);
    } else {
      MoveRequests(w.next, w.full, w.pcs, w.loc, w.line, t, Check(r, FromTask));
      ScanPlaced(s, t, r);
    }
    ScanControlled(s, t, r);
  }

  lemma StepOrderly(s: State, t: Tid, flag: bool)
    requires Orderly(s) && Enabled(s, t)
    ensures Orderly(Step(s, t, flag))
  {
    hide Orderly;
    match PcOf(s, t)
    case Publish(r) => ExchangeKeeps(s, t, r);
    case Connect(_, _, _) => ConnectKeeps(s, t, flag);
    case GotRight(r) => RightKeeps(s, t, r, flag);
    case SyncWrite(r) => SyncWriteKeeps(s, t, r);
    case Check(r, from) => CheckKeeps(s, t, r, from);
    case Reverse(base, p, tail, from) => ReverseKeeps(s, t, base, p, tail, from);
    case LinkOld(base, last, from) => LinkKeeps(s, t, base, last, from);
    case Done(r, from) => DoneKeeps(s, t, r, from);
    case Task(r) => TaskKeeps(s, t, r);
    case Scan(r) => ScanKeeps(s, t, r);
    case Free(saved, r) => FreeKeeps(s, t, saved, r);
    case BgTest => TestKeeps(s, t);
    case Lock(_) => LockKeeps(s, t, flag);
    case Decide(_) => LockKeeps(s, t, flag);
    case HandOff(_) => LockKeeps(s, t, flag);
    case _ => UnlockKeeps(s, t, flag);
  }

  // ---- Every step keeps the background thread wakeable ----

  /** Program points of LogTask and IsLogComplete. */
  predicate Working(pc: Pc) {
    pc.Task? || pc.Scan? || pc.Check? || pc.Reverse? || pc.LinkOld? || pc.Free?
  }

  /** A thread that writes goes on. */
  lemma WorkWoken(s: State, t: Tid, s': State, pc: Pc)
    requires s in Controlled() && s in Woken() && t in s.pcs && Working(s.pcs[t]) && Same(s, t, s', pc)
    requires Working(pc) || pc.Done? || pc.Lock?
    ensures s' in Woken()
  {
    hide Control;
    ControlAt(s, t);
  }

  lemma WritingWoken(s: State, t: Tid, flag: bool)
    requires Inv(s) && t in s.pcs && Working(s.pcs[t]) && !Step(s, t, flag).fault
    ensures Step(s, t, flag) in Woken()
  {
    hide Requests, Place, Control, Wake, Same, TaskStep, ScanStep, CheckStep, ReverseStep, LinkStep, ReturnObject;
    var s' := Step(s, t, flag);
    match s.pcs[t]
    case Task(r) => TaskSame(s, t, r); WorkWoken(s, t, s', s'.pcs[t]);
    case Scan(r) => ScanSame(s, t, r); WorkWoken(s, t, s', s'.pcs[t]);
    case Check(r, from) => CheckSame(s, t, r, from); WorkWoken(s, t, s', s'.pcs[t]);
    case Reverse(base, p, tail, from) => ReverseSame(s, t, base, p, tail, from); WorkWoken(s, t, s', s'.pcs[t]);
    case LinkOld(base, last, from) => LinkSame(s, t, base, last, from); WorkWoken(s, t, s', s'.pcs[t]);
    case Free(saved, r) => FreeSame(s, t, saved, r); WorkWoken(s, t, s', s'.pcs[t]);
  }

  /** Program points of a producer that is not writing. */
  predicate Producing(pc: Pc) {
    pc.Publish? || pc.Connect? || pc.GotRight? || pc.SyncWrite?
  }

  lemma ExchangeQuiet(s: State, t: Tid, r: Req)
    ensures var s' := Exchange(s, t, r);
      t in s'.pcs && Quiet(s, t, s', s'.pcs[t]) && (s'.pcs[t].GotRight? || s'.pcs[t].Connect?)
  {
    match s.head
    case None =>
    case Some(_) =>
  }

  lemma ExchangeWoken(s: State, t: Tid, r: Req)
    requires s in Controlled() && s in Woken() && t in s.pcs && t != BG && s.pcs[t] == Publish(r)
    ensures Exchange(s, t, r) in Woken()
  {
    hide Control, Wake, Exchange, Quiet;
    ExchangeQuiet(s, t, r);
    QuietWoken(s, t, Exchange(s, t, r), Exchange(s, t, r).pcs[t]);
  }

  lemma ProducingWoken(s: State, t: Tid, flag: bool)
    requires s in Controlled() && s in Woken() && t in s.pcs && Producing(s.pcs[t]) && t != BG
    ensures Step(s, t, flag) in Woken()
  {
    hide Control, Wake, Exchange, Quiet;
    var s' := Step(s, t, flag);
    match s.pcs[t]
    case Publish(r) => ExchangeWoken(s, t, r);
    case Connect(r, prev, _) => StoreQuiet(s, t, r, To(prev), Idle); QuietWoken(s, t, s', Idle);
    case GotRight(r) =>
      var pc := if flag then Lock(r) else SyncWrite(r);
      StoreQuiet(s, t, r, Nil, pc);
      QuietWoken(s, t, s', pc);
    case SyncWrite(r) => WriteQuiet(s, t, r); QuietWoken(s, t, s', Check(r, FromSync));
  }

  lemma StoreQuiet(s: State, t: Tid, r: Req, l: Link, pc: Pc)
    ensures Quiet(s, t, Go(SetNext(s, r, l), t, pc), pc)
  {
  }

  lemma WriteQuiet(s: State, t: Tid, r: Req)
    ensures Quiet(s, t, Go(DoLog(s, r), t, Check(r, FromSync)), Check(r, FromSync))
  {
  }

  lemma LockingWoken(s: State, t: Tid, flag: bool)
    requires Inv(s) && t in s.pcs && t != BG && Enabled(s, t)
    requires s.pcs[t].Lock? || s.pcs[t].Decide? || s.pcs[t].Unlock? || s.pcs[t].Done? || s.pcs[t].StopUnlock?
      || s.pcs[t].Join?
    ensures Step(s, t, flag) in Woken()
  {
    hide Requests, Place, Control;
    ControlAt(s, t);
    var s' := Step(s, t, flag);
    QuietWoken(s, t, s', s'.pcs[t]);
  }

  lemma TestWoken(s: State)
    requires s in Controlled() && s in Woken() && BG in s.pcs && s.pcs[BG].BgTest?
    ensures BgTestStep(s, BG) in Woken()
  {
    hide Control, Wake;
    SignalIs(s);
    match s.current
    case Some(r) => RunWoken(s, BgTestStep(s, BG), Task(r));
    case None => RunWoken(s, BgTestStep(s, BG), if s.stop then Exited else BgWait);
  }

  lemma RunningWoken(s: State, flag: bool)
    requires s in Controlled() && s in Woken() && BG in s.pcs && !Working(s.pcs[BG]) && Enabled(s, BG)
    ensures Step(s, BG, flag) in Woken()
  {
    hide Control, BgTestStep, DoneStep, Wake;
    ControlAt(s, BG);
    SignalIs(s);
    match s.pcs[BG]
    case BgTest => TestWoken(s);
    case BgLock => RunWoken(s, Go(s.(mutex := Some(BG)), BG, BgTest), BgTest);
    case BgWait => RunWoken(s, Go(s.(mutex := Some(BG), signal := false), BG, BgTest), BgTest);
    case BgClear => RunWoken(s, Go(s.(current := None), BG, BgUnlock), BgUnlock);
    case BgUnlock => RunWoken(s, Go(s.(mutex := None), BG, BgLock), BgLock);
    case Done(r, from) => DoneWoken(s, r, from);
  }

  lemma DoneWoken(s: State, r: Req, from: Caller)
    requires s in Controlled() && s in Woken() && BG in s.pcs && s.pcs[BG] == Done(r, from)
    ensures DoneStep(s, BG, r, from) in Woken()
  {
    hide Control, Wake;
    ControlAt(s, BG);
    SignalIs(s);
    RunWoken(s, DoneStep(s, BG, r, from), BgClear);
  }

  lemma SignalIs(s: State)
    requires s in Woken()
    ensures BG in s.pcs && (s.signal ==> s.pcs[BG].BgWait?)
  {
  }

  lemma StepWoken(s: State, t: Tid, flag: bool)
    requires Inv(s) && Enabled(s, t) && !Step(s, t, flag).fault
    ensures Step(s, t, flag) in Woken()
  {
    hide Inv, Step;
    if Working(PcOf(s, t)) {
      WritingWoken(s, t, flag);
    } else if t == BG {
      InvIs(s);
      RunningWoken(s, flag);
    } else if Producing(PcOf(s, t)) {
      InvIs(s);
      ProducingWoken(s, t, flag);
    } else if s.pcs[t].HandOff? || s.pcs[t].Notify? || Stopping(s.pcs[t]) {
      WakingWoken(s, t, flag);
    } else {
      NotBackground(s, t);
      LockingWoken(s, t, flag);
    }
  }

  lemma InvIs(s: State)
    requires Inv(s)
    ensures s in Controlled() && s in Woken()
  {
  }

  lemma NotBackground(s: State, t: Tid)
    requires Inv(s) && t in s.pcs && t != BG
    ensures RunBy(s.pcs[t]) != Background
  {
    ControlAt(s, t);
  }

  lemma WakingWoken(s: State, t: Tid, flag: bool)
    requires Inv(s) && t in s.pcs && t != BG && Enabled(s, t)
    requires s.pcs[t].HandOff? || s.pcs[t].Notify? || Stopping(s.pcs[t])
    ensures Step(s, t, flag) in Woken()
  {
    hide Requests, Place, Control, Wake;
    match s.pcs[t]
    case HandOff(r) => HandOffWoken(s, t, r);
    case Notify => SignalWoken(s, t, Unlock);
    case StopNotify => SignalWoken(s, t, StopUnlock);
    case StopLock => StopLockWoken(s, t);
  }

  lemma StepKeeps(s: State, t: Tid, flag: bool)
    requires Inv(s) && Enabled(s, t)
    ensures Inv(Step(s, t, flag))
  {
    hide Requests, Place, Control, Wake;
    StepOrderly(s, t, flag);
    StepWoken(s, t, flag);
  }

  lemma BeginWoken(s: State, t: Tid, r: Req)
    requires s in Controlled() && s in Woken() && t != BG && PcOf(s, t) == Idle
    ensures Begin(s, t, r) in Woken()
  {
  }

  lemma SpuriousKeeps(s: State)
    requires Inv(s) && PcOf(s, BG).BgWait?
    ensures Inv(s.(signal := true))
  {
  }

  lemma SysStepKeeps(s: State, s': State)
    requires Inv(s) && SysStep(s, s')
    ensures Inv(s')
  {
    hide Requests, Place, Control, Wake, Step;
    if PcOf(s, BG).BgWait? && s' == s.(signal := true) {
      SpuriousKeeps(s);
    } else if t: Tid, flag :| Enabled(s, t) && s' == Step(s, t, flag) {
      StepKeeps(s, t, flag);
    } else if t: Tid :| t != BG && PcOf(s, t) == Idle && s' == Stop(s, t) {
      StopOrderly(s, t);
      StopWoken(s, t);
    } else {
      var t: Tid, r: Req :| t != BG && PcOf(s, t) == Idle && r !in s.next && s' == Begin(s, t, r);
      BeginKeeps(s, t, r);
      BeginWoken(s, t, r);
    }
  }

  lemma InitInv()
    ensures Inv(Init())
  {
  }

  lemma {:induction false} RunKeeps(run: seq<State>, k: nat)
    requires IsRun(run) && k < |run|
    ensures Inv(run[k])
  {
    hide Inv, SysStep, Init;
    if k == 0 {
      InitInv();
    } else {
      RunKeeps(run, k - 1);
      SysStepKeeps(run[k - 1], run[k]);
    }
  }

  // ---- What the invariant means ----

  /** A request is parked and the background thread has not taken it yet. */
  predicate Parked(s: State) {
    s.current.Some? && !BgBusy(PcOf(s, BG))
  }

  /** At most one party may write: one thread, or the request parked for the background thread. */
  ghost predicate OneParty(s: State) {
    && (forall t: Tid, u: Tid :: HoldsRight(PcOf(s, t)) && HoldsRight(PcOf(s, u)) ==> t == u)
    && (Parked(s) || s.head == None ==> forall t: Tid :: !HoldsRight(PcOf(s, t)))
  }

  /** What was written is the beginning of what was queued, in the order of the exchanges;
      an empty queue means that all of it was written, and no request was touched after its return. */
  lemma WritesInExchangeOrder(run: seq<State>, k: nat)
    requires IsRun(run) && k < |run|
    ensures var s := run[k];
      && s.log <= s.line.q
      && (s.head == None ==> s.log == s.line.q)
      && OneParty(s)
      && !s.fault
  {
    RunKeeps(run, k);
  }

  /** The hand-off: a writer that finds _stop clear under the mutex finds _current_log_request empty,
      so it overwrites nothing. A parked request is the one just written or the next one to write. */
  lemma HandoffOverwritesNothing(run: seq<State>, k: nat, t: Tid)
    requires IsRun(run) && k < |run|
    ensures var s := run[k];
      && (PcOf(s, t).Decide? || PcOf(s, t).HandOff? ==> s.current == None)
      && |s.log| <= |s.line.q|
      && (Parked(s) ==>
            || (|s.log| < |s.line.q| && s.current == Some(s.line.q[|s.log|]))
            || (|s.log| > 0 && s.current == Some(s.line.q[|s.log| - 1])))
  {
    RunKeeps(run, k);
  }

  /** A writer spins only on a request whose producer can take the step it waits for. */
  lemma SpinHasProducer(run: seq<State>, k: nat, t: Tid)
    requires IsRun(run) && k < |run|
    requires PcOf(run[k], t).Reverse? && !Enabled(run[k], t)
    ensures exists u: Tid :: PcOf(run[k], u).Connect? && PcOf(run[k], u).req == PcOf(run[k], t).p && Enabled(run[k], u)
  {
    RunKeeps(run, k);
    var s := run[k];
    assert Back(s.line, s.line.j);
    var u := s.line.who[s.line.j];
    assert Enabled(s, u);
  }

  /** Nothing is left to do: the background thread has gone, or it waits and there is nothing to wake it for. */
  ghost predicate AtRest(s: State) {
    && s.head == None && s.log == s.line.q && s.current == None && s.mutex == None
    && (forall t: Tid :: t != BG ==> PcOf(s, t).Idle?)
    && (PcOf(s, BG).Exited? || (PcOf(s, BG).BgWait? && !s.stop))
  }

  /** Waiting and not woken: no request is parked but by a thread about to signal, and _stop is clear or the
      thread that set it has yet to signal. */
  lemma NoLostWakeUp(run: seq<State>, k: nat)
    requires IsRun(run) && k < |run| && PcOf(run[k], BG).BgWait? && !run[k].signal
    ensures run[k].current.Some? ==> run[k].mutex.Some? && PcOf(run[k], run[k].mutex.value).Notify?
    ensures run[k].stop ==> exists t: Tid :: PcOf(run[k], t).StopLock? || PcOf(run[k], t).StopNotify?
  {
    RunKeeps(run, k);
    var s := run[k];
    assert s.stop ==> Stopping(PcOf(s, s.stopper.value));
  }

  /** A thread that cannot move waits for the mutex, a producer, a signal or the end of Run. */
  lemma FreeMutex(s: State, t: Tid)
    requires Inv(s) && s.mutex == None && !Enabled(s, t)
    ensures PcOf(s, t).Idle? || PcOf(s, t).Exited? || PcOf(s, t).Reverse? || (PcOf(s, t).BgWait? && !s.signal)
      || (PcOf(s, t).Join? && s.stop && !PcOf(s, BG).Exited?)
  {
  }

  /** Whoever holds the mutex can move, or spins. */
  lemma HolderMoves(s: State)
    requires Inv(s) && s.mutex.Some?
    ensures Enabled(s, s.mutex.value) || PcOf(s, s.mutex.value).Reverse?
  {
  }

  lemma ToRest(s: State)
    requires Inv(s) && s.mutex == None
    requires forall t: Tid :: PcOf(s, t).Idle? || PcOf(s, t).Exited? || (PcOf(s, t).BgWait? && !s.signal)
    ensures AtRest(s)
  {
    hide Requests, Wake, Forward, At;
    assert s.owner.Thread? ==> HoldsRight(PcOf(s, s.owner.t));
    RestAwake(s);
  }

  lemma RestAwake(s: State)
    requires Inv(s) && s.mutex == None
    requires forall t: Tid :: PcOf(s, t).Idle? || PcOf(s, t).Exited? || (PcOf(s, t).BgWait? && !s.signal)
    ensures s.current == None && (PcOf(s, BG).Exited? || (PcOf(s, BG).BgWait? && !s.stop))
    ensures forall t: Tid :: t != BG ==> PcOf(s, t).Idle?
  {
    hide Requests, Place, OneWriter;
    assert PcOf(s, BG) == s.pcs[BG] && RunBy(s.pcs[BG]) != Producer;
    assert s.stop && PcOf(s, BG).BgWait? ==> Stopping(PcOf(s, s.stopper.value));
  }

  /** No deadlock: when no thread can move, everything queued was written and nobody waits for anything. */
  lemma NoDeadlock(run: seq<State>, k: nat)
    requires IsRun(run) && k < |run| && forall t: Tid :: !Enabled(run[k], t)
    ensures AtRest(run[k])
  {
    hide Inv, Enabled, AtRest;
    RunKeeps(run, k);
    var s := run[k];
    if s.mutex.Some? {
      HolderMoves(s);
      SpinHasProducer(run, k, s.mutex.value);
    }
    forall t: Tid
      ensures PcOf(s, t).Idle? || PcOf(s, t).Exited? || (PcOf(s, t).BgWait? && !s.signal)
    {
      FreeMutex(s, t);
      if PcOf(s, t).Reverse? {
        SpinHasProducer(run, k, t);
      } else if PcOf(s, t).Join? {
        JoinEnds(run, k, t);
      }
    }
    ToRest(s);
  }

  /** Whoever joins is not waiting for a thread that sleeps. */
  lemma JoinEnds(run: seq<State>, k: nat, t: Tid)
    requires IsRun(run) && k < |run| && PcOf(run[k], t).Join? && run[k].mutex == None && run[k].stop
    requires !PcOf(run[k], BG).Exited?
    ensures exists u: Tid :: Enabled(run[k], u)
  {
    hide Inv, IsRun, Enabled;
    RunKeeps(run, k);
    var s := run[k];
    if !Enabled(s, BG) {
      FreeMutex(s, BG);
      BgAlive(s);
      if PcOf(s, BG).Reverse? {
        SpinHasProducer(run, k, BG);
      } else {
        NoLostWakeUp(run, k);
        var u: Tid :| PcOf(s, u).StopLock? || PcOf(s, u).StopNotify?;
        StopperMoves(s, u);
      }
    }
  }

  lemma BgAlive(s: State)
    requires Inv(s)
    ensures !PcOf(s, BG).Idle? && !PcOf(s, BG).Join?
  {
  }

  lemma StopperMoves(s: State, u: Tid)
    requires s.mutex == None && (PcOf(s, u).StopLock? || PcOf(s, u).StopNotify?)
    ensures Enabled(s, u)
  {
  }

  /** Stopping: once the background thread has gone, nothing is or will be parked, and when no writer is left
      every queued request has been written. A stop that nobody can carry on has ended in that way. */
  lemma StopDrains(run: seq<State>, k: nat)
    requires IsRun(run) && k < |run|
    ensures PcOf(run[k], BG).Exited? ==> run[k].stop && run[k].current == None
    ensures PcOf(run[k], BG).Exited? && (forall t: Tid :: !HoldsRight(PcOf(run[k], t))) ==> run[k].log == run[k].line.q
    ensures run[k].stop && (forall t: Tid :: !Enabled(run[k], t)) ==>
      PcOf(run[k], BG).Exited? && run[k].log == run[k].line.q && forall t: Tid :: !PcOf(run[k], t).Join?
  {
    RunKeeps(run, k);
    var s := run[k];
    if s.owner.Thread? {
      assert HoldsRight(PcOf(s, s.owner.t));
    }
    if forall t: Tid :: !Enabled(s, t) {
      NoDeadlock(run, k);
    }
  }

  // ---- Who writes ----

  /** Program points of LogTask, which writes all there is. */
  predicate Draining(pc: Pc) {
    match pc
    case Task(_) => true
    case Scan(_) => true
    case Free(_, _) => true
    case Check(_, from) => from.FromTask?
    case Reverse(_, _, _, from) => from.FromTask?
    case LinkOld(_, _, from) => from.FromTask?
    case Done(_, from) => from.FromTask?
    case _ => false
  }

  ghost predicate DrainsInBackground(s: State) {
    forall t: Tid :: t != BG && Draining(PcOf(s, t)) ==> s.stop
  }

  /** A thread stays where it is, and nobody stops the logger. */
  predicate Stands(s: State, u: Tid, s': State) {
    PcOf(s', u) == PcOf(s, u) && s'.stop == s.stop
  }

  lemma ExchangeStands(s: State, t: Tid, r: Req, u: Tid)
    requires u != t
    ensures Stands(s, u, Exchange(s, t, r))
  {
  }

  lemma RightStands(s: State, t: Tid, r: Req, flag: bool, u: Tid)
    requires u != t
    ensures Stands(s, u, StoreRight(s, t, r, flag))
  {
  }

  lemma DecideStands(s: State, t: Tid, r: Req, u: Tid)
    requires u != t
    ensures Stands(s, u, DecideStep(s, t, r))
  {
  }

  lemma CheckStands(s: State, t: Tid, r: Req, from: Caller, u: Tid)
    requires u != t
    ensures Stands(s, u, CheckStep(s, t, r, from))
  {
  }

  lemma DoneStands(s: State, t: Tid, r: Req, from: Caller, u: Tid)
    requires u != t
    ensures Stands(s, u, DoneStep(s, t, r, from))
  {
  }

  lemma ReverseStands(s: State, t: Tid, base: Req, p: Req, tail: Option<Req>, from: Caller, u: Tid)
    requires u != t
    ensures Stands(s, u, ReverseStep(s, t, base, p, tail, from))
  {
  }

  lemma LinkStands(s: State, t: Tid, base: Req, last: Req, from: Caller, u: Tid)
    requires u != t
    ensures Stands(s, u, LinkStep(s, t, base, last, from))
  {
  }

  lemma AdvanceStands(s: State, t: Tid, r: Req, u: Tid)
    requires u != t
    ensures Stands(s, u, Advance(s, t, r))
  {
  }

  lemma TestStands(s: State, t: Tid, u: Tid)
    requires u != t
    ensures Stands(s, u, BgTestStep(s, t))
  {
  }

  lemma TaskStands(s: State, t: Tid, r: Req, u: Tid)
    requires u != t
    ensures Stands(s, u, TaskStep(s, t, r)) && Stands(s, u, ScanStep(s, t, r))
  {
    hide Advance;
    AdvanceStands(s.(fault := s.fault || r !in s.next), t, r, u);
    AdvanceStands(if r in s.full then DoLog(s, r) else s.(fault := s.fault || r !in s.next), t, r, u);
  }

  lemma OtherDrains(s: State, t: Tid, flag: bool, u: Tid)
    requires u != t
    ensures Stands(s, u, Step(s, t, flag))
  {
    hide Exchange, StoreRight, DecideStep, CheckStep, ReverseStep, LinkStep, DoneStep, TaskStep, ScanStep, BgTestStep;
    match PcOf(s, t)
    case Publish(r) => ExchangeStands(s, t, r, u);
    case GotRight(r) => RightStands(s, t, r, flag, u);
    case Decide(r) => DecideStands(s, t, r, u);
    case Check(r, from) => CheckStands(s, t, r, from, u);
    case Done(r, from) => DoneStands(s, t, r, from, u);
    case Reverse(base, p, tail, from) => ReverseStands(s, t, base, p, tail, from, u);
    case LinkOld(base, last, from) => LinkStands(s, t, base, last, from, u);
    case Task(r) => TaskStands(s, t, r, u);
    case Scan(r) => TaskStands(s, t, r, u);
    case BgTest => TestStands(s, t, u);
    case Idle =>
    case Exited =>
    case _ =>
      if Handing(PcOf(s, t)) {
        HandingStands(s, t, flag, u);
      } else if Resting(PcOf(s, t)) {
        RestingStands(s, t, flag, u);
      } else {
        PlainStands(s, t, flag, u);
      }
  }

  lemma FreeStands(s: State, t: Tid, r: Req, saved: Req, u: Tid)
    requires u != t
    ensures Stands(s, u, Go(ReturnObject(s, saved), t, Scan(r))) && Stands(s, u, Go(DoLog(s, r), t, Check(r, FromSync)))
    ensures Stands(s, u, Go(SetNext(s, r, To(saved)), t, Idle))
  {
  }

  lemma SignalStands(s: State, t: Tid, pc: Pc, u: Tid)
    requires u != t
    ensures Stands(s, u, Go(Signal(s), t, pc))
  {
  }

  lemma GoStands(s: State, x: State, t: Tid, pc: Pc, u: Tid)
    requires u != t && x.pcs == s.pcs && x.stop == s.stop
    ensures Stands(s, u, Go(x, t, pc))
  {
  }

  lemma PlainStands(s: State, t: Tid, flag: bool, u: Tid)
    requires u != t && (PcOf(s, t).Free? || PcOf(s, t).SyncWrite? || PcOf(s, t).Connect?)
    ensures Stands(s, u, Step(s, t, flag))
  {
    hide ReturnObject, DoLog, SetNext, Go, Stands;
    match PcOf(s, t)
    case Free(saved, r) => FreeStands(s, t, r, saved, u);
    case SyncWrite(r) => FreeStands(s, t, r, r, u);
    case Connect(r, prev, _) => FreeStands(s, t, r, prev, u);
  }

  predicate Handing(pc: Pc) {
    pc.Lock? || pc.HandOff? || pc.Notify? || pc.Unlock?
  }

  lemma HandingStands(s: State, t: Tid, flag: bool, u: Tid)
    requires u != t && Handing(PcOf(s, t))
    ensures Stands(s, u, Step(s, t, flag))
  {
    hide Go, Stands, Signal;
    match PcOf(s, t)
    case Lock(r) => GoStands(s, s.(mutex := Some(t)), t, Decide(r), u);
    case HandOff(r) => GoStands(s, s.(current := Some(r), owner := HandedOff), t, Notify, u);
    case Notify => SignalStands(s, t, Unlock, u);
    case Unlock => GoStands(s, s.(mutex := None), t, Idle, u);
  }

  predicate Resting(pc: Pc) {
    pc.BgLock? || pc.BgWait? || pc.BgClear? || pc.BgUnlock? || pc.StopLock? || pc.StopNotify? || pc.StopUnlock?
    || pc.Join?
  }

  lemma RestingStands(s: State, t: Tid, flag: bool, u: Tid)
    requires u != t && Resting(PcOf(s, t))
    ensures Stands(s, u, Step(s, t, flag))
  {
    hide Go, Stands, Signal;
    match PcOf(s, t)
    case BgLock => GoStands(s, s.(mutex := Some(t)), t, BgTest, u);
    case BgWait => GoStands(s, s.(mutex := Some(t), signal := false), t, BgTest, u);
    case BgClear => GoStands(s, s.(current := None), t, BgUnlock, u);
    case BgUnlock => GoStands(s, s.(mutex := None), t, BgLock, u);
    case StopLock => GoStands(s, s.(mutex := Some(t)), t, StopNotify, u);
    case StopNotify => SignalStands(s, t, StopUnlock, u);
    case StopUnlock => GoStands(s, s.(mutex := None), t, Join, u);
    case Join => GoStands(s, s, t, Idle, u);
  }

  lemma SelfDrains(s: State, t: Tid, flag: bool)
    requires t != BG && RunBy(PcOf(s, t)) != Background && (Draining(PcOf(s, t)) ==> s.stop)
    ensures Draining(PcOf(Step(s, t, flag), t)) ==> s.stop
  {
    hide Exchange, StoreRight, CheckStep, ReverseStep, LinkStep, DoneStep, TaskStep, ScanStep, BgTestStep;
    match PcOf(s, t)
    case Publish(r) => ImplSelf(s, t, r, flag);
    case GotRight(r) => ImplSelf(s, t, r, flag);
    case Check(r, from) => CheckSelf(s, t, r, from);
    case Done(r, from) => CheckSelf(s, t, r, from);
    case Reverse(base, p, tail, from) => ReverseSelf(s, t, base, p, tail, from);
    case LinkOld(base, last, from) => ReverseSelf(s, t, base, last, None, from);
    case _ =>
  }

  lemma ImplSelf(s: State, t: Tid, r: Req, flag: bool)
    ensures !Draining(PcOf(Exchange(s, t, r), t)) && !Draining(PcOf(StoreRight(s, t, r, flag), t))
  {
  }

  lemma CheckSelf(s: State, t: Tid, r: Req, from: Caller)
    requires !Draining(PcOf(s, t)) ==> from.FromSync?
    ensures Draining(PcOf(CheckStep(s, t, r, from), t)) ==> Draining(PcOf(s, t)) || from.FromTask?
    ensures !Draining(PcOf(DoneStep(s, t, r, from), t))
  {
  }

  lemma ReverseSelf(s: State, t: Tid, base: Req, p: Req, tail: Option<Req>, from: Caller)
    requires !Draining(PcOf(s, t)) ==> from.FromSync?
    ensures from.FromSync? && Draining(PcOf(ReverseStep(s, t, base, p, tail, from), t)) ==> Draining(PcOf(s, t))
    ensures from.FromSync? ==> !Draining(PcOf(LinkStep(s, t, base, p, from), t))
  {
  }

  lemma StepDrains(s: State, t: Tid, flag: bool, u: Tid)
    requires (u != BG && Draining(PcOf(s, u)) ==> s.stop) && (t != BG ==> RunBy(PcOf(s, t)) != Background)
    ensures u != BG && Draining(PcOf(Step(s, t, flag), u)) ==> Step(s, t, flag).stop
  {
    hide Step, Draining;
    OtherDrains(s, t, flag, t + 1);
    if u == t {
      if t != BG {
        SelfDrains(s, t, flag);
      }
    } else {
      OtherDrains(s, t, flag, u);
    }
  }

  lemma SysStepDrains(s: State, s': State)
    requires Inv(s) && SysStep(s, s') && DrainsInBackground(s)
    ensures DrainsInBackground(s')
  {
    hide Requests, Place, Control, Wake, Step;
    if t: Tid, flag :| Enabled(s, t) && s' == Step(s, t, flag) {
      if t != BG && t in s.pcs {
        NotBackground(s, t);
      }
      forall u: Tid | u != BG && Draining(PcOf(s', u))
        ensures s'.stop
      {
        StepDrains(s, t, flag, u);
      }
    } else {
      forall u: Tid | u != BG && Draining(PcOf(s', u))
        ensures s'.stop
      {
        assert Draining(PcOf(s, u));
      }
    }
  }

  /** As long as the logger is not stopped no producer runs LogTask: what is queued behind the request a producer
      writes itself is drained by the background thread. */
  lemma {:induction false} BackgroundDrains(run: seq<State>, k: nat)
    requires IsRun(run) && k < |run|
    ensures DrainsInBackground(run[k])
  {
    hide Inv, SysStep;
    if k > 0 {
      BackgroundDrains(run, k - 1);
      RunKeeps(run, k - 1);
      SysStepDrains(run[k - 1], run[k]);
    }
  }
}
