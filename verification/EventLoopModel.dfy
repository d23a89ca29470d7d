/** The cross-thread protocol of one event loop, as interleaved atomic steps of the loop's own
    thread (number LOOP) and of any number of other threads. A thread inside `queueInLoop`,
    `runInLoop` or `quit` is at some `CallPc`; the loop thread is also at some `LoopPc` of
    `loop`/`doPendingFunctors`. Memory is sequentially consistent and `poll` is level-triggered. */
module EventLoopModel {
  import opened Options

  type Tid = nat

  /** The thread that built the loop and calls loop(): `isLoopThread` compares with it. */
  const LOOP: Tid := 0

  /** A non-blocking write that would push the eventfd counter past this value fails. */
  const EVENTFD_MAX: nat := 0xFFFF_FFFF_FFFF_FFFE

  /** Where the code that enqueued a functor was running. */
  datatype Origin = FromOutside | FromHandler | FromFunctor | FromTimer | FromForeign

  datatype Functor = Functor(caller: Tid, origin: Origin, tag: nat)

  datatype Channel = WakeupChannel | IoChannel(fd: nat)

  datatype LoopPc =
    | Outside                       // loop() not entered yet
    | TestQuit                      // while (!_quit)
    | AtPoll                        // in or about to enter poll
    | Dispatch(todo: seq<Channel>)  // walking ActivityChannel
    | InHandler(now: Channel, todo: seq<Channel>) // the user handler of `now` is running
    | WantSwap                      // in doPendingFunctors, before the lock
    | HoldSwap                      // mutex held, before the swap
    | Swapped                       // mutex held, after the swap
    | RunBatch                      // walking the batch, unlocked
    | InFunctor                     // a functor of the batch is running
    | Timers                        // in handleExpired
    | Done                          // loop() has returned

  datatype CallPc =
    | Idle
    | WantPush(f: Functor)          // in queueInLoop, before the lock
    | HoldPush(f: Functor)          // mutex held, before push_back
    | Pushed                        // mutex held, after push_back
    | Decide                        // mutex released, before the wakeup test
    | QuitDecide                    // _quit set, before the thread test
    | Wake(quitting: bool)          // about to write the eventfd

  /** What happened so far; no step of the program reads it. */
  datatype History = History(
    queued: seq<Functor>,           // every push_back, in order
    executed: seq<Functor>,         // every functor taken from a batch, in order
    ran: seq<(Functor, Tid)>,       // every execution, with the executing thread
    asked: seq<seq<Functor>>)       // per thread, the functors it handed over, in program order

  datatype State = State(
    quit: bool,
    functorList: seq<Functor>,
    batch: seq<Functor>,            // what is left of the swapped-out vector
    calling: bool,                  // _callingPendingFunctors
    mutex: Option<Tid>,
    wakeups: nat,                   // the eventfd counter
    timed: bool,                    // whether poll has a finite timeout
    pc: LoopPc,
    callers: seq<CallPc>,           // one per thread
    hist: History)

  datatype Action =
    | Queue(t: Tid, tag: nat)     // thread t calls queueInLoop
    | RunIn(t: Tid, tag: nat)     // thread t calls runInLoop
    | Quit(t: Tid)                  // thread t calls quit
    | Step(t: Tid)                  // the next atomic step of the call thread t is in
    | Poll(ready: seq<Channel>)     // poll returns
    | LoopStep                      // the next atomic step of loop()

  function Init(threads: nat, timed: bool): State
    requires threads > 0
  {
    State(false, [], [], false, None, 0, timed, Outside,
          seq(threads, _ => Idle), History([], [], [], seq(threads, _ => [])))
  }

  predicate IsLoopThread(t: Tid) {
    t == LOOP
  }

  /** The loop thread runs user code, which may call the loop's own methods. */
  predicate UserCode(pc: LoopPc) {
    pc.Outside? || pc.InHandler? || pc.InFunctor? || pc.Timers? || pc.Done?
  }

  function OriginAt(t: Tid, pc: LoopPc): Origin {
    if !IsLoopThread(t) then FromForeign
    else match pc
      case InHandler(_, _) => FromHandler
      case InFunctor => FromFunctor
      case Timers => FromTimer
      case _ => FromOutside
  }

  /** Thread t can start a call on the loop. */
  predicate CanCall(s: State, t: Tid) {
    t < |s.callers| == |s.hist.asked| && s.callers[t] == Idle && (IsLoopThread(t) ==> UserCode(s.pc))
  }

  predicate Enabled(s: State, a: Action) {
    match a
    case Queue(t, _) => CanCall(s, t)
    case RunIn(t, _) => CanCall(s, t)
    case Quit(t) => CanCall(s, t)
    case Step(t) =>
      t < |s.callers| && s.callers[t] != Idle && (s.callers[t].WantPush? ==> s.mutex == None)
    case Poll(ready) =>
      && s.pc == AtPoll
      && (WakeupChannel in ready <==> s.wakeups > 0)
      && (ready != [] || s.timed)
    case LoopStep =>
      && |s.callers| > 0 && s.callers[LOOP] == Idle
      && s.pc != AtPoll && s.pc != Done
      && (s.pc == WantSwap ==> s.mutex == None)
  }

  function StartQueue(s: State, t: Tid, tag: nat): State
    requires CanCall(s, t)
  {
    var f := Functor(t, OriginAt(t, s.pc), tag);
    s.(callers := s.callers[t := WantPush(f)], hist := s.hist.(asked := s.hist.asked[t := s.hist.asked[t] + [f]]))
  }

  /** One atomic step of queueInLoop or quit. */
  function CallStep(s: State, t: Tid): State
    requires Enabled(s, Step(t))
  {
    match s.callers[t]
    case WantPush(f) => s.(mutex := Some(t), callers := s.callers[t := HoldPush(f)])
    case HoldPush(f) =>
      s.(functorList := s.functorList + [f], callers := s.callers[t := Pushed],
         hist := s.hist.(queued := s.hist.queued + [f]))
    case Pushed => s.(mutex := None, callers := s.callers[t := Decide])
    case Decide =>
      s.(callers := s.callers[t := if !IsLoopThread(t) || s.calling then Wake(false) else Idle])
    case QuitDecide =>
      s.(callers := s.callers[t := if !IsLoopThread(t) then Wake(true) else Idle])
    case Wake(_) =>
      s.(wakeups := if s.wakeups < EVENTFD_MAX then s.wakeups + 1 else s.wakeups,
         callers := s.callers[t := Idle])
  }

  /** One atomic step of loop() and doPendingFunctors(). */
  function LoopNext(s: State): State
    requires Enabled(s, LoopStep)
  {
    match s.pc
    case Outside => s.(pc := TestQuit)
    case TestQuit => s.(pc := if s.quit then Done else AtPoll)
    case Dispatch(todo) =>
      if todo == [] then s.(calling := true, pc := WantSwap)
      else if todo[0] == WakeupChannel then s.(wakeups := 0, pc := Dispatch(todo[1..]))
      else s.(pc := InHandler(todo[0], todo[1..]))
    case InHandler(_, todo) => s.(pc := Dispatch(todo))
    case WantSwap => s.(mutex := Some(LOOP), pc := HoldSwap)
    case HoldSwap => s.(batch := s.functorList, functorList := [], pc := Swapped)
    case Swapped => s.(mutex := None, pc := RunBatch)
    case RunBatch =>
      if s.batch == [] then s.(calling := false, pc := Timers)
      else s.(batch := s.batch[1..], pc := InFunctor,
              hist := s.hist.(executed := s.hist.executed + [s.batch[0]],
                              ran := s.hist.ran + [(s.batch[0], LOOP)]))
    case InFunctor => s.(pc := RunBatch)
    case Timers => s.(pc := TestQuit)
  }

  function Next(s: State, a: Action): State
    requires Enabled(s, a)
  {
    match a
    case Queue(t, tag) => StartQueue(s, t, tag)
    case RunIn(t, tag) =>
      if IsLoopThread(t) then s.(hist := s.hist.(ran := s.hist.ran + [(Functor(t, OriginAt(t, s.pc), tag), t)]))
      else StartQueue(s, t, tag)
    case Quit(t) => s.(quit := true, callers := s.callers[t := QuitDecide])
    case Step(t) => CallStep(s, t)
    case Poll(ready) => s.(pc := Dispatch(ready))
    case LoopStep => LoopNext(s)
  }

  predicate CanRun(s: State, acts: seq<Action>)
    decreases |acts|
  {
    acts == [] || (Enabled(s, acts[0]) && CanRun(Next(s, acts[0]), acts[1..]))
  }

  function Run(s: State, acts: seq<Action>): State
    requires CanRun(s, acts)
    decreases |acts|
  {
    if acts == [] then s else Run(Next(s, acts[0]), acts[1..])
  }
}
