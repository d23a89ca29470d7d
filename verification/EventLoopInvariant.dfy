/** What every step of the protocol keeps, whatever the interleaving. */
module EventLoopInvariant {
  import opened Options
  import opened EventLoopModel

  predicate Holding(s: State, t: Tid) {
    t < |s.callers|
    && (s.callers[t].HoldPush? || s.callers[t].Pushed?
        || (t == LOOP && (s.pc.HoldSwap? || s.pc.Swapped?)))
  }

  /** The mutex is held by exactly the thread that stands between a lock and its release. */
  ghost predicate Locking(s: State) {
    && |s.callers| == |s.hist.asked| > 0
    && (s.mutex.Some? ==> s.mutex.value < |s.callers|)
    && (forall t: Tid {:trigger Holding(s, t)} :: Holding(s, t) <==> s.mutex == Some(t))
  }

  predicate CallingPhase(pc: LoopPc) {
    pc.WantSwap? || pc.HoldSwap? || pc.Swapped? || pc.RunBatch? || pc.InFunctor?
  }

  /** `_callingPendingFunctors` covers the whole batch; the loop's own calls come from user code. */
  ghost predicate Flags(s: State)
    requires Locking(s)
  {
    && (s.calling <==> CallingPhase(s.pc))
    && (!UserCode(s.pc) ==> s.callers[LOOP] == Idle)
    && (s.batch != [] ==> s.pc.Swapped? || s.pc.RunBatch? || s.pc.InFunctor?)
  }

  /** A functor about to be pushed carries its caller and where that caller is now. */
  predicate Named(c: CallPc, t: Tid, pc: LoopPc) {
    c.WantPush? || c.HoldPush? ==> c.f.caller == t && c.f.origin == OriginAt(t, pc)
  }

  ghost predicate Names(s: State) {
    forall t: Tid | t < |s.callers| :: Named(s.callers[t], t, s.pc)
  }

  /** Only the loop thread's own functors have an origin in its phases. */
  predicate Honest(f: Functor) {
    f.origin == FromForeign <==> !IsLoopThread(f.caller)
  }

  ghost predicate Origins(s: State) {
    forall f | f in s.hist.queued :: Honest(f)
  }

  /** Nothing queued is lost, duplicated or reordered. */
  ghost predicate Fifo(s: State) {
    s.hist.queued == s.hist.executed + s.batch + s.functorList
  }

  /** A swap is still to come before the next poll. */
  predicate WillSwap(pc: LoopPc) {
    pc.Dispatch? || pc.InHandler? || pc.WantSwap? || pc.HoldSwap?
  }

  /** Thread t has pushed a functor and, for it, is going to write the eventfd. */
  predicate Waking(s: State, t: Tid) {
    t < |s.callers|
    && (s.callers[t] == Wake(false)
        || ((s.callers[t].Pushed? || s.callers[t].Decide?) && (!IsLoopThread(t) || s.calling)))
  }

  /** The enqueues that `queueInLoop` answers for: all but the loop thread's own ones from the timer
      phase or from outside loop(). */
  predicate Covered(f: Functor) {
    f.origin != FromOutside && f.origin != FromTimer
  }

  /** With no swap due, the wakeup for a covered functor has been written or its producer will write it. */
  ghost predicate WakeInv(s: State) {
    !WillSwap(s.pc) ==>
      forall f | f in s.functorList && Covered(f) :: s.wakeups > 0 || Waking(s, f.caller)
  }

  /** Thread t has set `_quit` and is going to write the eventfd. */
  predicate Quitting(s: State, t: Tid) {
    t < |s.callers| && !IsLoopThread(t) && (s.callers[t].QuitDecide? || s.callers[t] == Wake(true))
  }

  ghost predicate QuitInv(s: State) {
    && (s.quit && s.pc == AtPoll ==> s.wakeups > 0 || exists t: Tid :: Quitting(s, t))
    && (forall t: Tid | t < |s.callers| && (s.callers[t].QuitDecide? || s.callers[t] == Wake(true)) :: s.quit)
  }

  /** The functors of a history that thread t handed over. */
  function By(t: Tid, fs: seq<Functor>): seq<Functor> {
    if fs == [] then []
    else
      var last := fs[|fs| - 1];
      By(t, fs[..|fs| - 1]) + (if last.caller == t then [last] else [])
  }

  function NotYetPushed(c: CallPc): seq<Functor> {
    if c.WantPush? || c.HoldPush? then [c.f] else []
  }

  ghost predicate OrderOf(s: State, t: Tid)
    requires t < |s.callers| == |s.hist.asked|
  {
    s.hist.asked[t] == By(t, s.hist.queued) + NotYetPushed(s.callers[t])
  }

  ghost predicate OrderInv(s: State) {
    && |s.callers| == |s.hist.asked|
    && (forall t: Tid | t < |s.callers| :: OrderOf(s, t))
    && (forall i | 0 <= i < |s.hist.ran| :: s.hist.ran[i].1 == LOOP)
  }

  ghost predicate Inv(s: State) {
    && Locking(s)
    && Flags(s)
    && Names(s)
    && Origins(s)
    && Fifo(s)
    && WakeInv(s)
    && QuitInv(s)
    && OrderInv(s)
  }

  lemma InitInv(threads: nat, timed: bool)
    requires threads > 0
    ensures Inv(Init(threads, timed))
  {
  }

  lemma ByAppend(t: Tid, fs: seq<Functor>, f: Functor)
    ensures By(t, fs + [f]) == By(t, fs) + (if f.caller == t then [f] else [])
  {
  }

  lemma StartQueueInv(s: State, t: Tid, tag: nat)
    requires Inv(s) && CanCall(s, t)
    ensures Inv(StartQueue(s, t, tag))
  {
    var n := StartQueue(s, t, tag);
    assert Locking(n) by {
      forall u: Tid
        ensures Holding(n, u) <==> n.mutex == Some(u)
      {
        assert Holding(s, u) <==> s.mutex == Some(u);
      }
    }
    assert QuitInv(n) by { KeepQuitters(s, n, t); }
    assert OrderInv(n) by {
      forall u: Tid | u < |n.callers|
        ensures OrderOf(n, u)
      {
        assert OrderOf(s, u);
      }
    }
  }

  lemma KeepQuitters(s: State, n: State, t: Tid)
    requires t < |s.callers| == |n.callers| && s.callers[t] == Idle
    requires forall u: Tid | u < |s.callers| && u != t :: n.callers[u] == s.callers[u]
    ensures (exists u: Tid :: Quitting(s, u)) ==> (exists u: Tid :: Quitting(n, u))
  {
    if exists u: Tid :: Quitting(s, u) {
      var u: Tid :| Quitting(s, u);
      assert Quitting(n, u);
    }
  }

  lemma QuitCallInv(s: State, t: Tid)
    requires Inv(s) && CanCall(s, t)
    ensures Inv(Next(s, Quit(t)))
  {
    var n := Next(s, Quit(t));
    assert Locking(n) by {
      forall u: Tid
        ensures Holding(n, u) <==> n.mutex == Some(u)
      {
        assert Holding(s, u) <==> s.mutex == Some(u);
      }
    }
    assert QuitInv(n) by {
      assert n.pc == AtPoll ==> Quitting(n, t);
    }
    assert OrderInv(n) by {
      forall u: Tid | u < |n.callers|
        ensures OrderOf(n, u)
      {
        assert OrderOf(s, u);
      }
    }
  }

  /** Thread t alone may have taken or released the mutex. */
  lemma LockStep(s: State, n: State, t: Tid)
    requires Locking(s)
    requires |n.callers| == |s.callers| == |n.hist.asked| && t < |s.callers|
    requires forall u: Tid {:trigger Holding(n, u)} | u != t :: Holding(n, u) <==> Holding(s, u)
    requires Holding(n, t) <==> n.mutex == Some(t)
    requires n.mutex == s.mutex || (n.mutex == Some(t) && s.mutex == None) || (n.mutex == None && s.mutex == Some(t))
    ensures Locking(n)
  {
  }

  lemma CallStepLocking(s: State, t: Tid)
    requires Locking(s) && Flags(s) && Enabled(s, Step(t))
    ensures Locking(CallStep(s, t)) && Flags(CallStep(s, t))
  {
    assert Holding(s, t) <==> s.mutex == Some(t);
    OneCaller(s, t);
    LockStep(s, CallStep(s, t), t);
  }

  /** A step of a call touches no thread but its own, nor where loop() is. */
  lemma OneCaller(s: State, t: Tid)
    requires Enabled(s, Step(t))
    ensures var n := CallStep(s, t);
            && n.callers == s.callers[t := n.callers[t]] && |n.callers| == |s.callers|
            && n.pc == s.pc && n.batch == s.batch && n.calling == s.calling && n.hist.asked == s.hist.asked
            && n.hist.executed == s.hist.executed && n.quit == s.quit
            && s.functorList <= n.functorList && s.hist.queued <= n.hist.queued
  {
    match s.callers[t]
    case WantPush(_) =>
    case HoldPush(_) =>
    case Pushed =>
    case Decide =>
    case QuitDecide =>
    case Wake(_) =>
  }

  lemma CallStepNames(s: State, t: Tid)
    requires Names(s) && Enabled(s, Step(t))
    ensures Names(CallStep(s, t))
  {
    assert Named(s.callers[t], t, s.pc);
  }

  lemma CallStepWake(s: State, t: Tid)
    requires Locking(s) && Flags(s) && Names(s) && WakeInv(s) && Enabled(s, Step(t))
    ensures WakeInv(CallStep(s, t))
  {
    var n := CallStep(s, t);
    assert Named(s.callers[t], t, s.pc);
    if !WillSwap(n.pc) {
      forall f | f in n.functorList && Covered(f)
        ensures n.wakeups > 0 || Waking(n, f.caller)
      {
        if s.callers[t].HoldPush? && f == s.callers[t].f {
          assert Waking(n, t);
        } else {
          assert f in s.functorList;
          assert s.wakeups > 0 || Waking(s, f.caller);
          CallStepKeepsWaker(s, t, f.caller);
        }
      }
    }
  }

  lemma CallStepKeepsWaker(s: State, t: Tid, u: Tid)
    requires Enabled(s, Step(t)) && (s.wakeups > 0 || Waking(s, u))
    ensures CallStep(s, t).wakeups > 0 || Waking(CallStep(s, t), u)
  {
  }

  lemma CallStepQuit(s: State, t: Tid)
    requires QuitInv(s) && Enabled(s, Step(t))
    ensures QuitInv(CallStep(s, t))
  {
    var n := CallStep(s, t);
    if n.quit && n.pc == AtPoll && n.wakeups == 0 {
      var u: Tid :| Quitting(s, u);
      assert Quitting(n, u);
    }
  }

  lemma CallStepOrder(s: State, t: Tid)
    requires Names(s) && OrderInv(s) && Enabled(s, Step(t))
    ensures OrderInv(CallStep(s, t))
  {
    var n := CallStep(s, t);
    assert OrderOf(s, t);
    if s.callers[t].HoldPush? {
      assert Named(s.callers[t], t, s.pc);
      PushOrder(s, n, t);
    } else {
      assert NotYetPushed(n.callers[t]) == NotYetPushed(s.callers[t]);
      SameOrder(s, n);
    }
  }

  lemma PushOrder(s: State, n: State, t: Tid)
    requires OrderInv(s) && t < |s.callers| && s.callers[t].HoldPush? && s.callers[t].f.caller == t
    requires n.callers == s.callers[t := Pushed] && n.hist.ran == s.hist.ran
    requires n.hist.asked == s.hist.asked && n.hist.queued == s.hist.queued + [s.callers[t].f]
    ensures OrderInv(n)
  {
    forall u: Tid | u < |n.callers|
      ensures OrderOf(n, u)
    {
      assert OrderOf(s, u);
      ByAppend(u, s.hist.queued, s.callers[t].f);
    }
  }

  lemma SameOrder(s: State, n: State)
    requires OrderInv(s) && |n.callers| == |s.callers|
    requires forall u: Tid | u < |s.callers| :: NotYetPushed(n.callers[u]) == NotYetPushed(s.callers[u])
    requires n.hist.asked == s.hist.asked && n.hist.queued == s.hist.queued
    requires forall i | 0 <= i < |n.hist.ran| :: n.hist.ran[i].1 == LOOP
    ensures OrderInv(n)
  {
    forall u: Tid | u < |n.callers|
      ensures OrderOf(n, u)
    {
      assert OrderOf(s, u);
    }
  }

  lemma CallStepFifo(s: State, t: Tid)
    requires Fifo(s) && Enabled(s, Step(t))
    ensures Fifo(CallStep(s, t))
  {
  }

  lemma CallStepOrigins(s: State, t: Tid)
    requires Names(s) && Origins(s) && Enabled(s, Step(t))
    ensures Origins(CallStep(s, t))
  {
    assert Named(s.callers[t], t, s.pc);
  }

  lemma CallStepInv(s: State, t: Tid)
    requires Inv(s) && Enabled(s, Step(t))
    ensures Inv(CallStep(s, t))
  {
    CallStepLocking(s, t);
    CallStepNames(s, t);
    CallStepOrigins(s, t);
    CallStepFifo(s, t);
    CallStepWake(s, t);
    CallStepQuit(s, t);
    CallStepOrder(s, t);
  }

  lemma LoopLocking(s: State)
    requires Locking(s) && Flags(s) && Enabled(s, LoopStep)
    ensures Locking(LoopNext(s)) && Flags(LoopNext(s))
  {
    assert Holding(s, LOOP) <==> s.mutex == Some(LOOP);
    LockStep(s, LoopNext(s), LOOP);
  }

  lemma LoopNames(s: State)
    requires Names(s) && Enabled(s, LoopStep)
    ensures Names(LoopNext(s))
  {
    assert LoopNext(s).callers == s.callers;
    forall t: Tid | t < |s.callers|
      ensures Named(s.callers[t], t, LoopNext(s).pc)
    {
      assert Named(s.callers[t], t, s.pc);
    }
  }

  lemma LoopWake(s: State)
    requires Locking(s) && Flags(s) && WakeInv(s) && Enabled(s, LoopStep)
    ensures WakeInv(LoopNext(s))
  {
    var n := LoopNext(s);
    assert n.callers == s.callers;
    if !WillSwap(n.pc) {
      forall f | f in n.functorList && Covered(f)
        ensures n.wakeups > 0 || Waking(n, f.caller)
      {
        assert f in s.functorList;
        assert s.wakeups > 0 || Waking(s, f.caller);
      }
    }
  }

  lemma LoopOrder(s: State)
    requires OrderInv(s) && Enabled(s, LoopStep)
    ensures OrderInv(LoopNext(s))
  {
    SameOrder(s, LoopNext(s));
  }

  lemma LoopFifo(s: State)
    requires Locking(s) && Flags(s) && Fifo(s) && Enabled(s, LoopStep)
    ensures Fifo(LoopNext(s))
  {
  }

  lemma LoopQuit(s: State)
    requires QuitInv(s) && Enabled(s, LoopStep)
    ensures QuitInv(LoopNext(s))
  {
    assert LoopNext(s).callers == s.callers;
  }

  lemma LoopInv(s: State)
    requires Inv(s) && Enabled(s, LoopStep)
    ensures Inv(LoopNext(s))
  {
    LoopQuit(s);
    assert LoopNext(s).hist.queued == s.hist.queued;
    LoopLocking(s);
    LoopNames(s);
    LoopFifo(s);
    LoopWake(s);
    LoopOrder(s);
  }

  lemma RunInInv(s: State, t: Tid, tag: nat)
    requires Inv(s) && CanCall(s, t)
    ensures Inv(Next(s, RunIn(t, tag)))
  {
    if IsLoopThread(t) {
      var n := Next(s, RunIn(t, tag));
      assert Holding(s, LOOP) <==> s.mutex == Some(LOOP);
      LockStep(s, n, t);
      SameOrder(s, n);
      KeepQuitters(s, n, t);
    } else {
      StartQueueInv(s, t, tag);
    }
  }

  lemma PollInv(s: State, ready: seq<Channel>)
    requires Inv(s) && Enabled(s, Poll(ready))
    ensures Inv(Next(s, Poll(ready)))
  {
    assert Holding(s, LOOP) <==> s.mutex == Some(LOOP);
    LockStep(s, Next(s, Poll(ready)), LOOP);
    assert forall t: Tid | t < |s.callers| :: Named(s.callers[t], t, s.pc);
    SameOrder(s, Next(s, Poll(ready)));
  }

  lemma NextInv(s: State, a: Action)
    requires Inv(s) && Enabled(s, a)
    ensures Inv(Next(s, a))
  {
    match a
    case Queue(t, tag) => StartQueueInv(s, t, tag);
    case RunIn(t, tag) => RunInInv(s, t, tag);
    case Quit(t) => QuitCallInv(s, t);
    case Step(t) => CallStepInv(s, t);
    case Poll(ready) => PollInv(s, ready);
    case LoopStep => LoopInv(s);
  }

  lemma {:induction false} RunInv(s: State, acts: seq<Action>)
    requires Inv(s) && CanRun(s, acts)
    ensures Inv(Run(s, acts))
    decreases |acts|
  {
    if acts != [] {
      NextInv(s, acts[0]);
      RunInv(Next(s, acts[0]), acts[1..]);
    }
  }
}
