/**
 The queue of AsyncLogger as a state machine: any number of producers run LogImpl,
 one background thread runs Run, and either of them may run LogTask and IsLogComplete.
 Any thread may call StopAndJoin. A step is one access to something another thread may
 change in the meantime (`_log_head`, a `next` that is UNCONNECTED, the mutex, `_stop`, the
 condition variable). With it go accesses to what is the thread's alone at that point: the
 requests it has the right to write, and what the mutex it holds guards.

 The last five fields of `State` are history: no step reads them to decide what to do.
 */
module AsyncLogger {

  type Req = nat   // address of a LogRequest; a returned address may be handed out again
  type Tid = nat
  const BG: Tid := 0   // the thread that runs AsyncLogger::Run

  datatype Option<T> = None | Some(value: T)
  datatype Link = Unconnected | Nil | To(req: Req)

  /** Who called IsLogComplete: LogImpl itself or LogTask. */
  datatype Caller = FromSync | FromTask

  datatype Pc =
    | Idle
    // LogImpl
    | Publish(req: Req)                      // next is UNCONNECTED, about to exchange
    | Connect(req: Req, prev: Req, at: nat)  // about to store next = prev_head
    | GotRight(req: Req)                     // about to store next = NULL
    | SyncWrite(req: Req)                    // about to DoLog
    | Lock(req: Req)                         // about to lock _mutex
    | Decide(req: Req)                       // about to look at _stop
    | HandOff(req: Req)                      // about to store _current_log_request
    | Notify                                 // about to signal
    | Unlock
    // IsLogComplete
    | Check(req: Req, from: Caller)
    | Reverse(base: Req, p: Req, tail: Option<Req>, from: Caller)
    | LinkOld(base: Req, last: Req, from: Caller)
    | Done(req: Req, from: Caller)           // about to return the last request to the pool
    // LogTask
    | Task(req: Req)
    | Scan(req: Req)
    | Free(saved: Req, req: Req)             // about to return `saved` to the pool
    // Run
    | BgLock
    | BgTest
    | BgWait                                 // in _cond.Wait, without the mutex
    | BgClear
    | BgUnlock
    | Exited
    // StopAndJoin
    | StopLock
    | StopNotify
    | StopUnlock
    | Join

  /** Who may write the log file: nobody, a thread, or the request parked in _current_log_request. */
  datatype Owner = NoOne | Thread(t: Tid) | HandedOff

  /** `q`: requests in the order of their exchanges, `who`: the threads that did them.
      The writer is at position `lo`; positions [lo, hi) are linked forwards, (j, m) are those
      the running reversal has already turned round. */
  datatype Line = Line(q: seq<Req>, who: seq<Tid>, lo: nat, hi: nat, j: int, m: nat)

  /** A live request waits at a position of `q` or is in the hands of one thread. */
  datatype Loc = Waiting(at: nat) | Held(t: Tid)

  datatype State = State(
    head: Option<Req>,        // _log_head
    next: map<Req, Link>,     // LogRequest::next of every request taken from the pool
    full: set<Req>,           // requests whose content is not empty
    mutex: Option<Tid>,
    current: Option<Req>,     // _current_log_request
    stop: bool,
    signal: bool,             // the waiting background thread was woken
    pcs: map<Tid, Pc>,
    fault: bool,              // a returned request was touched, or an fprintf(stderr) line ran
    line: Line,               // history
    loc: map<Req, Loc>,       // history: where every request taken from the pool is
    log: seq<Req>,            // history: requests in the order they were written
    owner: Owner,             // history: who holds the right to write
    stopper: Option<Tid>)     // history: the thread that set _stop

  function PcOf(s: State, t: Tid): Pc {
    if t in s.pcs then s.pcs[t] else Idle
  }

  function Go(s: State, t: Tid, pc: Pc): State {
    s.(pcs := s.pcs[t := pc])
  }

  function Next(s: State, r: Req): Link {
    if r in s.next then s.next[r] else Nil
  }

  function SetNext(s: State, r: Req, l: Link): State {
    s.(next := s.next[r := l], fault := s.fault || r !in s.next)
  }

  function ReturnObject(s: State, r: Req): State {
    s.(next := s.next - {r}, full := s.full - {r}, loc := s.loc - {r}, fault := s.fault || r !in s.next)
  }

  /** DoLog(req): write the content and clear it. */
  function DoLog(s: State, r: Req): State {
    s.(full := s.full - {r}, fault := s.fault || r !in s.next,
       log := s.log + [r])
  }

  function Init(): State {
    State(None, map[], {}, None, None, false, false, map[BG := BgLock], false,
          Line([], [], 0, 0, -1, 0), map[], [], NoOne, None)
  }

  // ---- LogImpl ----

  /** Log(): a request with content is taken from the pool and marked UNCONNECTED. */
  function Begin(s: State, t: Tid, r: Req): State {
    Go(s.(next := s.next[r := Unconnected], full := s.full + {r}, loc := s.loc[r := Held(t)]), t, Publish(r))
  }

  function Exchange(s: State, t: Tid, r: Req): State {
    var prev := s.head;
    var n := |s.line.q|;
    var line := s.line.(q := s.line.q + [r], who := s.line.who + [t]);
    var s := s.(head := Some(r), loc := s.loc[r := Waiting(n)]);
    match prev
    case None =>
      Go(s.(owner := Thread(t), line := line.(lo := n, hi := n + 1, j := n, m := n + 1)), t, GotRight(r))
    case Some(p) =>
      Go(s.(line := line), t, Connect(r, p, n))
  }

  function StoreRight(s: State, t: Tid, r: Req, backgroundAlways: bool): State {
    Go(SetNext(s, r, Nil), t, if backgroundAlways then Lock(r) else SyncWrite(r))
  }

  function DecideStep(s: State, t: Tid, r: Req): State {
    Go(s, t, if s.stop then Task(r) else HandOff(r))
  }

  /** _cond.Signal(): nobody but the background thread ever waits. */
  function Signal(s: State): State {
    s.(signal := s.signal || PcOf(s, BG).BgWait?)
  }

  // ---- IsLogComplete ----

  function CheckStep(s: State, t: Tid, r: Req, from: Caller): State {
    var s := s.(fault := s.fault || r !in s.next || Next(s, r) != Nil || s.head == None);
    var n := |s.line.q|;
    match s.head
    case Some(top) =>
      if top == r then
        Go(s.(head := None, owner := NoOne, loc := s.loc[r := Held(t)],
          line := s.line.(lo := n, hi := n, j := n - 1, m := n)), t, Done(r, from))
      else
        Go(s.(line := s.line.(m := n, j := n - 1)), t, Reverse(r, top, None, from))
    case None => s
  }

  function ReverseStep(s: State, t: Tid, base: Req, p: Req, tail: Option<Req>, from: Caller): State {
    var saved := Next(s, p);
    var s := SetNext(s, p, if tail == None then Nil else To(tail.value));
    var s := s.(line := s.line.(j := s.line.j - 1));
    match saved
    case To(r) => Go(s, t, if r == base then LinkOld(base, p, from) else Reverse(base, r, Some(p), from))
    case _ => s.(fault := true)
  }

  function LinkStep(s: State, t: Tid, base: Req, last: Req, from: Caller): State {
    Go(SetNext(s, base, To(last)).(line := s.line.(hi := s.line.m, j := s.line.m - 1)), t,
       if from.FromSync? then Lock(base) else Task(base))
  }

  function DoneStep(s: State, t: Tid, r: Req, from: Caller): State {
    Go(ReturnObject(s, r), t,
       if from.FromSync? then Idle else if t == BG then BgClear else Unlock)
  }

  // ---- LogTask ----

  function Advance(s: State, t: Tid, r: Req): State {
    match Next(s, r)
    case To(n) => Go(s.(loc := s.loc[r := Held(t)], line := s.line.(lo := s.line.lo + 1)), t, Free(r, n))
    case _ => s.(fault := true)
  }

  function TaskStep(s: State, t: Tid, r: Req): State {
    var s := s.(fault := s.fault || r !in s.next);
    if Next(s, r) != Nil && r !in s.full then Advance(s, t, r) else Go(s, t, Scan(r))
  }

  function ScanStep(s: State, t: Tid, r: Req): State {
    var w := if r in s.full then DoLog(s, r) else s.(fault := s.fault || r !in s.next);
    if Next(s, r) != Nil then Advance(w, t, r) else Go(w, t, Check(r, FromTask))
  }

  // ---- Run ----

  function BgTestStep(s: State, t: Tid): State {
    match s.current
    case Some(r) => Go(s.(owner := Thread(t)), t, Task(r))
    case None => Go(s.(mutex := None), t, if s.stop then Exited else BgWait)
  }

  // ---- StopAndJoin ----

  /** The exchange of _stop: only the first to set it goes on to signal. */
  function Stop(s: State, t: Tid): State {
    if s.stop then Go(s, t, Join) else Go(s.(stop := true, stopper := Some(t)), t, StopLock)
  }

  /** A thread can move: it does not spin on UNCONNECTED, nor wait for the mutex, a signal or the end of Run. */
  predicate Enabled(s: State, t: Tid) {
    match PcOf(s, t)
    case Idle => false
    case Exited => false
    case Lock(_) => s.mutex == None
    case BgLock => s.mutex == None
    case BgWait => s.signal && s.mutex == None
    case StopLock => s.mutex == None
    case Join => PcOf(s, BG).Exited?
    case Reverse(_, p, _, _) => Next(s, p) != Unconnected
    case _ => true
  }

  /** The next step of thread `t`; `flag` is the value read from FLAGS_async_log_in_background_always. */
  function Step(s: State, t: Tid, flag: bool): State {
    match PcOf(s, t)
    case Idle => s
    case Publish(r) => Exchange(s, t, r)
    case Connect(r, prev, _) => Go(SetNext(s, r, To(prev)), t, Idle)
    case GotRight(r) => StoreRight(s, t, r, flag)
    case SyncWrite(r) => Go(DoLog(s, r), t, Check(r, FromSync))
    case Lock(r) => Go(s.(mutex := Some(t)), t, Decide(r))
    case Decide(r) => DecideStep(s, t, r)
    case HandOff(r) => Go(s.(current := Some(r), owner := HandedOff), t, Notify)
    case Notify => Go(Signal(s), t, Unlock)
    case Unlock => Go(s.(mutex := None), t, Idle)
    case Check(r, from) => CheckStep(s, t, r, from)
    case Reverse(base, p, tail, from) => ReverseStep(s, t, base, p, tail, from)
    case LinkOld(base, last, from) => LinkStep(s, t, base, last, from)
    case Done(r, from) => DoneStep(s, t, r, from)
    case Task(r) => TaskStep(s, t, r)
    case Scan(r) => ScanStep(s, t, r)
    case Free(saved, r) => Go(ReturnObject(s, saved), t, Scan(r))
    case BgLock => Go(s.(mutex := Some(t)), t, BgTest)
    case BgTest => BgTestStep(s, t)
    case BgWait => Go(s.(mutex := Some(t), signal := false), t, BgTest)
    case BgClear => Go(s.(current := None), t, BgUnlock)
    case BgUnlock => Go(s.(mutex := None), t, BgLock)
    case Exited => s
    case StopLock => Go(s.(mutex := Some(t)), t, StopNotify)
    case StopNotify => Go(Signal(s), t, StopUnlock)
    case StopUnlock => Go(s.(mutex := None), t, Join)
    case Join => Go(s, t, Idle)
  }

  /** One step of the whole system. The last one is a wake-up without a signal. */
  ghost predicate SysStep(s: State, s': State) {
    || (exists t: Tid, flag :: Enabled(s, t) && s' == Step(s, t, flag))
    || (exists t: Tid, r: Req :: t != BG && PcOf(s, t) == Idle && r !in s.next && s' == Begin(s, t, r))
    || (exists t: Tid :: t != BG && PcOf(s, t) == Idle && s' == Stop(s, t))
    || (PcOf(s, BG).BgWait? && s' == s.(signal := true))
  }

  ghost predicate IsRun(run: seq<State>) {
    |run| > 0 && run[0] == Init() && forall i :: 0 <= i < |run| - 1 ==> SysStep(run[i], run[i + 1])
  }

  /** Program points at which a thread holds the right to write. */
  predicate HoldsRight(pc: Pc) {
    pc.GotRight? || pc.SyncWrite? || pc.Lock? || pc.Decide? || pc.HandOff? || pc.Check? || pc.Reverse? ||
    pc.LinkOld? || pc.Task? || pc.Scan? || pc.Free?
  }

  /** Program points inside the critical section of _mutex. */
  predicate InLock(pc: Pc) {
    match pc
    case Decide(_) => true
    case HandOff(_) => true
    case Notify => true
    case Unlock => true
    case Check(_, from) => from.FromTask?
    case Reverse(_, _, _, from) => from.FromTask?
    case LinkOld(_, _, from) => from.FromTask?
    case Done(_, from) => from.FromTask?
    case Task(_) => true
    case Scan(_) => true
    case Free(_, _) => true
    case BgTest => true
    case BgClear => true
    case BgUnlock => true
    case StopNotify => true
    case StopUnlock => true
    case _ => false
  }
}
