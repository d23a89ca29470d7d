/** What the protocol guarantees in every reachable state and over every run. */
module EventLoopTheorems {
  import opened Options
  import opened EventLoopModel
  import opened EventLoopInvariant

  ghost predicate Reachable(s: State) {
    exists threads: nat, timed: bool, acts: seq<Action> ::
      threads > 0 && CanRun(Init(threads, timed), acts) && s == Run(Init(threads, timed), acts)
  }

  lemma ReachableInv(s: State)
    requires Reachable(s)
    ensures Inv(s)
  {
    var threads: nat, timed: bool, acts: seq<Action> :|
      threads > 0 && CanRun(Init(threads, timed), acts) && s == Run(Init(threads, timed), acts);
    InitInv(threads, timed);
    RunInv(Init(threads, timed), acts);
  }

  lemma {:induction false} RunConcat(s: State, first: seq<Action>, second: seq<Action>)
    requires CanRun(s, first) && CanRun(Run(s, first), second)
    ensures CanRun(s, first + second) && Run(s, first + second) == Run(Run(s, first), second)
    decreases |first|
  {
    if first == [] {
      assert first + second == second;
    } else {
      assert (first + second)[1..] == first[1..] + second;
      RunConcat(Next(s, first[0]), first[1..], second);
    }
  }

  lemma RunSnoc(s: State, acts: seq<Action>, a: Action)
    requires CanRun(s, acts) && Enabled(Run(s, acts), a)
    ensures CanRun(s, acts + [a]) && Run(s, acts + [a]) == Next(Run(s, acts), a)
  {
    assert CanRun(Next(Run(s, acts), a), []);
    assert [a][1..] == [];
    RunConcat(s, acts, [a]);
  }

  // --- Wakeups --------------------------------------------------------------------------------

  /** No lost wakeup: while a covered functor is queued, a loop in or before poll has been woken, or the
      very thread that pushed the functor still stands between its push and its write. */
  lemma NoLostWakeup(s: State, f: Functor)
    requires Reachable(s)
    requires s.pc == AtPoll || s.pc == TestQuit
    requires f in s.functorList && Covered(f)
    ensures s.wakeups > 0
            || (!IsLoopThread(f.caller) && f.caller < |s.callers|
                && (s.callers[f.caller] == Pushed || s.callers[f.caller] == Decide
                    || s.callers[f.caller] == Wake(false)))
  {
    ReachableInv(s);
    assert s.wakeups > 0 || Waking(s, f.caller);
  }

  /** A loop about to block with work queued and nobody going to wake it. */
  ghost predicate Stranded(s: State) {
    && s.pc == AtPoll && s.functorList != [] && s.wakeups == 0
    && forall t: Tid :: !Waking(s, t) && !Quitting(s, t)
  }

  /** Only the loop thread's own enqueues from its timer phase or from outside loop() strand it. */
  lemma StrandedOnlyByUncovered(s: State)
    requires Reachable(s) && s.pc == AtPoll && s.wakeups == 0 && forall t: Tid :: !Waking(s, t)
    ensures forall f | f in s.functorList ::
              IsLoopThread(f.caller) && (f.origin == FromTimer || f.origin == FromOutside)
  {
    ReachableInv(s);
    forall f | f in s.functorList
      ensures IsLoopThread(f.caller) && (f.origin == FromTimer || f.origin == FromOutside)
    {
      assert f in s.hist.queued && Honest(f);
      assert !Waking(s, f.caller);
    }
  }

  /** queueInLoop on thread t, run without interruption up to its wakeup test. */
  function WholeCall(t: Tid, tag: nat): seq<Action> {
    [Queue(t, tag), Step(t), Step(t), Step(t), Step(t)]
  }

  lemma RunFive(s: State, a: Action, b: Action, c: Action, d: Action, e: Action)
    requires Enabled(s, a) && Enabled(Next(s, a), b) && Enabled(Next(Next(s, a), b), c)
    requires Enabled(Next(Next(Next(s, a), b), c), d)
    requires Enabled(Next(Next(Next(Next(s, a), b), c), d), e)
    ensures CanRun(s, [a, b, c, d, e])
    ensures Run(s, [a, b, c, d, e]) == Next(Next(Next(Next(Next(s, a), b), c), d), e)
  {
    RunSnoc(s, [], a);
    assert [] + [a] == [a];
    RunSnoc(s, [a], b);
    assert [a] + [b] == [a, b];
    RunSnoc(s, [a, b], c);
    assert [a, b] + [c] == [a, b, c];
    RunSnoc(s, [a, b, c], d);
    assert [a, b, c] + [d] == [a, b, c, d];
    RunSnoc(s, [a, b, c, d], e);
    assert [a, b, c, d] + [e] == [a, b, c, d, e];
  }

  /** Every such enqueue does strand the loop: left alone, it pushes, does not wake, and reaches poll
      with the functor still queued. */
  lemma UncoveredStrands(s: State, tag: nat)
    requires Inv(s) && (s.pc == Timers || s.pc == Outside)
    requires s.callers[LOOP] == Idle && s.mutex == None && !s.quit
    requires s.wakeups == 0 && forall t: Tid :: !Waking(s, t)
    ensures var acts := WholeCall(LOOP, tag) + [LoopStep, LoopStep];
            && CanRun(s, acts)
            && Stranded(Run(s, acts))
            && Run(s, acts).functorList == s.functorList + [Functor(LOOP, OriginAt(LOOP, s.pc), tag)]
  {
    UncoveredCall(s, tag);
    var s5 := Run(s, WholeCall(LOOP, tag));
    var s6 := Next(s5, LoopStep);
    var s7 := Next(s6, LoopStep);
    RunSnoc(s, WholeCall(LOOP, tag), LoopStep);
    RunSnoc(s, WholeCall(LOOP, tag) + [LoopStep], LoopStep);
    assert WholeCall(LOOP, tag) + [LoopStep] + [LoopStep] == WholeCall(LOOP, tag) + [LoopStep, LoopStep];
    forall t: Tid
      ensures !Waking(s7, t) && !Quitting(s7, t)
    {
      assert !Waking(s, t);
    }
  }

  lemma UncoveredCall(s: State, tag: nat)
    requires Inv(s) && (s.pc == Timers || s.pc == Outside) && s.callers[LOOP] == Idle && s.mutex == None
    ensures CanRun(s, WholeCall(LOOP, tag))
    ensures var r := Run(s, WholeCall(LOOP, tag));
            && r == s.(functorList := s.functorList + [Functor(LOOP, OriginAt(LOOP, s.pc), tag)], hist := r.hist)
  {
    RunFive(s, Queue(LOOP, tag), Step(LOOP), Step(LOOP), Step(LOOP), Step(LOOP));
    assert Run(s, WholeCall(LOOP, tag)).callers == s.callers;
  }

  /** One quiet turn of the loop, woken by an I/O event: from before loop() to its timer phase. */
  function OneTurn(fd: nat): seq<Action> {
    [LoopStep, LoopStep, Poll([IoChannel(fd)]), LoopStep, LoopStep]
    + [LoopStep, LoopStep, LoopStep, LoopStep, LoopStep]
  }

  lemma OneTurnReachesTimers(timed: bool, fd: nat)
    ensures CanRun(Init(1, timed), OneTurn(fd))
    ensures var s := Run(Init(1, timed), OneTurn(fd));
            s.pc == Timers && s.callers == [Idle] && s.mutex == None && !s.quit && s.wakeups == 0
  {
    var s := Init(1, timed);
    assert s.callers == [Idle];
    var first := [LoopStep, LoopStep, Poll([IoChannel(fd)]), LoopStep, LoopStep];
    RunFive(s, LoopStep, LoopStep, Poll([IoChannel(fd)]), LoopStep, LoopStep);
    assert [IoChannel(fd)][1..] == [];
    assert Run(s, first) == s.(pc := Dispatch([]));
    EmptyBatch(Run(s, first));
    RunConcat(s, first, [LoopStep, LoopStep, LoopStep, LoopStep, LoopStep]);
  }

  lemma EmptyBatch(s: State)
    requires s.pc == Dispatch([]) && s.callers == [Idle] && s.mutex == None
    requires s.functorList == [] && s.batch == [] && !s.calling
    ensures var acts := [LoopStep, LoopStep, LoopStep, LoopStep, LoopStep];
            CanRun(s, acts) && Run(s, acts) == s.(pc := Timers)
  {
    RunFive(s, LoopStep, LoopStep, LoopStep, LoopStep, LoopStep);
  }

  /** Both kinds of stranding really happen, with nobody else on the loop. */
  lemma StrandedIsReachable(origin: Origin, tag: nat) returns (s: State)
    requires origin == FromTimer || origin == FromOutside
    ensures Reachable(s) && Stranded(s) && Functor(LOOP, origin, tag) in s.functorList
  {
    var acts: seq<Action> := if origin == FromTimer then OneTurn(9) else [];
    if origin == FromTimer {
      OneTurnReachesTimers(false, 9);
    }
    InitInv(1, false);
    var m := Run(Init(1, false), acts);
    assert m.callers[LOOP] == Idle;
    RunInv(Init(1, false), acts);
    UncoveredStrands(m, tag);
    RunConcat(Init(1, false), acts, WholeCall(LOOP, tag) + [LoopStep, LoopStep]);
    s := Run(m, WholeCall(LOOP, tag) + [LoopStep, LoopStep]);
  }

  /** Steps that do not need a new call from anyone. */
  predicate Internal(a: Action) {
    a.Step? || a.LoopStep? || a.Poll?
  }

  // --- Order and exactly-once -----------------------------------------------------------------

  /** Everything pushed is run once, in push order: what ran, what is left of the batch and what is
      queued are together the push history. A batch runs on the loop thread because loop() does, which
      is assumed; that runInLoop runs nothing at once anywhere else is proved. */
  lemma ExactlyOnceInOrder(s: State)
    requires Reachable(s)
    ensures s.hist.executed + s.batch + s.functorList == s.hist.queued
    ensures forall i | 0 <= i < |s.hist.ran| :: IsLoopThread(s.hist.ran[i].1)
  {
    ReachableInv(s);
  }

  lemma {:induction false} ByPrefix(t: Tid, fs: seq<Functor>, more: seq<Functor>)
    ensures By(t, fs) <= By(t, fs + more)
  {
    if more == [] {
      assert fs + more == fs;
    } else {
      var k := |more| - 1;
      ByPrefix(t, fs, more[..k]);
      ByAppend(t, fs + more[..k], more[k]);
      assert fs + more == fs + more[..k] + [more[k]];
    }
  }

  /** A thread's hand-overs, through queueInLoop and runInLoop alike, run in its program order. */
  lemma ProgramOrder(s: State, t: Tid)
    requires Reachable(s) && t < |s.callers|
    ensures |s.hist.asked| == |s.callers| && By(t, s.hist.executed) <= s.hist.asked[t]
    ensures s.batch == [] && s.functorList == [] && s.callers[t] == Idle
            ==> By(t, s.hist.executed) == s.hist.asked[t]
  {
    ReachableInv(s);
    assert OrderOf(s, t);
    var rest := s.batch + s.functorList;
    assert s.hist.queued == s.hist.executed + rest;
    ByPrefix(t, s.hist.executed, rest);
    if rest == [] {
      assert s.hist.queued == s.hist.executed;
    }
  }

  /** The queue as its users see it. */
  function Outstanding(s: State): seq<Functor> {
    s.batch + s.functorList
  }

  lemma SameOutstanding(s: State, a: Action)
    requires Enabled(s, a)
    requires a.Step? ==> !s.callers[a.t].HoldPush?
    requires a == LoopStep ==> s.pc != HoldSwap && (s.pc == RunBatch ==> s.batch == [])
    ensures Next(s, a).batch == s.batch && Next(s, a).functorList == s.functorList
  {
    if a.Step? {
      match s.callers[a.t]
      case WantPush(_) =>
      case Pushed =>
      case Decide =>
      case QuitDecide =>
      case Wake(_) =>
    }
  }

  /** The vector, the swap and the batch together are one FIFO queue: every step leaves it, appends
      the caller's functor, or takes the head and runs it on the loop thread. */
  lemma RefinesFifo(s: State, a: Action)
    requires Inv(s) && Enabled(s, a)
    ensures var q, r := Outstanding(s), Outstanding(Next(s, a));
            || r == q
            || (a.Step? && s.callers[a.t].HoldPush? && r == q + [s.callers[a.t].f])
            || (a == LoopStep && s.pc == RunBatch && q == [q[0]] + r
                && Next(s, a).hist.ran == s.hist.ran + [(q[0], LOOP)])
  {
    var n := Next(s, a);
    if a.Step? && s.callers[a.t].HoldPush? {
      assert Outstanding(n) == Outstanding(s) + [s.callers[a.t].f];
    } else if a == LoopStep && s.pc == HoldSwap {
      assert s.batch == [] && Outstanding(n) == Outstanding(s);
    } else if a == LoopStep && s.pc == RunBatch && s.batch != [] {
      assert Outstanding(s) == [s.batch[0]] + Outstanding(n);
    } else {
      SameOutstanding(s, a);
    }
  }

  datatype QueueOp = Put(f: Functor) | Take(f: Functor)

  /** What a step does to that queue. */
  function OpsOf(s: State, a: Action): seq<QueueOp>
    requires Enabled(s, a)
  {
    if a.Step? && s.callers[a.t].HoldPush? then [Put(s.callers[a.t].f)]
    else if a == LoopStep && s.pc == RunBatch && s.batch != [] then [Take(s.batch[0])]
    else []
  }

  function Ops(s: State, acts: seq<Action>): seq<QueueOp>
    requires CanRun(s, acts)
    decreases |acts|
  {
    if acts == [] then [] else OpsOf(s, acts[0]) + Ops(Next(s, acts[0]), acts[1..])
  }

  /** A plain FIFO queue: a take must find its functor at the head. */
  function Replay(q: seq<Functor>, ops: seq<QueueOp>): Option<seq<Functor>>
    decreases |ops|
  {
    if ops == [] then Some(q)
    else match ops[0]
      case Put(f) => Replay(q + [f], ops[1..])
      case Take(f) => if q != [] && q[0] == f then Replay(q[1..], ops[1..]) else None
  }

  /** Over any run and any interleaving, the puts and takes replay on a plain FIFO queue and end in
      what is outstanding. */
  lemma {:induction false} RunRefinesFifo(s: State, acts: seq<Action>)
    requires Inv(s) && CanRun(s, acts)
    ensures Replay(Outstanding(s), Ops(s, acts)) == Some(Outstanding(Run(s, acts)))
    decreases |acts|
  {
    if acts != [] {
      var n := Next(s, acts[0]);
      NextInv(s, acts[0]);
      RunRefinesFifo(n, acts[1..]);
      OneOp(s, acts[0], Ops(n, acts[1..]));
    }
  }

  lemma OneOp(s: State, a: Action, rest: seq<QueueOp>)
    requires Inv(s) && Enabled(s, a)
    ensures Replay(Outstanding(s), OpsOf(s, a) + rest) == Replay(Outstanding(Next(s, a)), rest)
  {
    RefinesFifo(s, a);
    var ops := OpsOf(s, a);
    if ops == [] {
      assert ops + rest == rest;
      assert Outstanding(Next(s, a)) == Outstanding(s) by {
        if a == LoopStep && s.pc == HoldSwap {
          assert s.batch == [];
        } else {
          SameOutstanding(s, a);
        }
      }
    } else {
      assert (ops + rest)[0] == ops[0] && (ops + rest)[1..] == rest;
      if a == LoopStep {
        assert Outstanding(s)[1..] == Outstanding(Next(s, a));
      } else {
        assert Outstanding(Next(s, a)) == Outstanding(s) + [s.callers[a.t].f];
      }
    }
  }

  // --- Bounded batches ------------------------------------------------------------------------

  predicate InBatch(pc: LoopPc) {
    pc.Swapped? || pc.RunBatch? || pc.InFunctor?
  }

  predicate StaysInBatch(s: State, acts: seq<Action>)
    decreases |acts|
  {
    InBatch(s.pc)
    && (acts == [] || (Enabled(s, acts[0]) && StaysInBatch(Next(s, acts[0]), acts[1..])))
  }

  lemma {:induction false} StaysCanRun(s: State, acts: seq<Action>)
    requires StaysInBatch(s, acts)
    ensures CanRun(s, acts)
    decreases |acts|
  {
    if acts != [] {
      StaysCanRun(Next(s, acts[0]), acts[1..]);
    }
  }

  /** How many steps of loop() are left in this batch, when no one adds to it. */
  function BatchSteps(s: State): nat {
    match s.pc
    case Swapped => 2 * |s.batch| + 2
    case InFunctor => 2 * |s.batch| + 2
    case RunBatch => 2 * |s.batch| + 1
    case _ => 0
  }

  function LoopSteps(acts: seq<Action>): nat {
    if acts == [] then 0
    else (if acts[0] == LoopStep then 1 else 0) + LoopSteps(acts[1..])
  }

  /** While the batch runs, and whatever its functors and other threads enqueue, the loop runs exactly
      the functors present at the swap, in a number of its own steps fixed at the swap; new functors
      only collect, in order, behind the ones already queued. */
  lemma {:induction false} BoundedBatch(s: State, acts: seq<Action>)
    requires Inv(s) && StaysInBatch(s, acts)
    ensures CanRun(s, acts)
    ensures var r := Run(s, acts);
            && r.hist.executed + r.batch == s.hist.executed + s.batch
            && s.functorList <= r.functorList
            && LoopSteps(acts) + BatchSteps(r) == BatchSteps(s)
    decreases |acts|
  {
    StaysCanRun(s, acts);
    if acts != [] {
      var n := Next(s, acts[0]);
      BatchStep(s, acts[0]);
      NextInv(s, acts[0]);
      BoundedBatch(n, acts[1..]);
    }
  }

  lemma BatchStep(s: State, a: Action)
    requires Inv(s) && InBatch(s.pc) && Enabled(s, a) && InBatch(Next(s, a).pc)
    ensures Next(s, a).hist.executed + Next(s, a).batch == s.hist.executed + s.batch
    ensures s.functorList <= Next(s, a).functorList
    ensures (if a == LoopStep then 1 else 0) + BatchSteps(Next(s, a)) == BatchSteps(s)
  {
    if a == LoopStep {
      BatchLoopStep(s);
    } else if a.Step? {
      OneCaller(s, a.t);
    }
  }

  lemma MoveOver(done: seq<Functor>, rest: seq<Functor>)
    requires rest != []
    ensures done + [rest[0]] + rest[1..] == done + rest
  {
  }

  lemma BatchLoopStep(s: State)
    requires InBatch(s.pc) && Enabled(s, LoopStep) && InBatch(LoopNext(s).pc)
    ensures var n := LoopNext(s);
            n.hist.executed + n.batch == s.hist.executed + s.batch && n.functorList == s.functorList
            && 1 + BatchSteps(n) == BatchSteps(s)
  {
    if s.pc == RunBatch {
      MoveOver(s.hist.executed, s.batch);
    }
  }

  /** A functor that enqueues on its own loop wakes it: whatever other threads do meanwhile, when the
      call is over and the batch still runs, the functor is queued and the eventfd is readable, so the
      next poll returns for it. */
  lemma OwnBatchEnqueueWakes(s: State, tag: nat, acts: seq<Action>)
    requires Inv(s) && CanCall(s, LOOP) && s.pc == InFunctor
    requires StaysInBatch(Next(s, Queue(LOOP, tag)), acts)
    ensures CanRun(Next(s, Queue(LOOP, tag)), acts)
    ensures var r := Run(Next(s, Queue(LOOP, tag)), acts);
            |r.callers| > 0 && (r.callers[LOOP] == Idle ==>
                                  Functor(LOOP, FromFunctor, tag) in r.functorList && r.wakeups > 0)
  {
    var f := Functor(LOOP, FromFunctor, tag);
    var n := Next(s, Queue(LOOP, tag));
    StartQueueInv(s, LOOP, tag);
    StaysCanRun(n, acts);
    EnqueueUnderWay(n, f, acts);
    assert f in Run(n, acts).functorList ==> Run(n, acts).wakeups > 0 || Waking(Run(n, acts), f.caller);
  }

  predicate UnderWayOrQueued(s: State, f: Functor) {
    LOOP < |s.callers| && (NotYetPushed(s.callers[LOOP]) == [f] || f in s.functorList)
  }

  lemma {:induction false} EnqueueUnderWay(s: State, f: Functor, acts: seq<Action>)
    requires Inv(s) && StaysInBatch(s, acts) && UnderWayOrQueued(s, f)
    ensures CanRun(s, acts) && Inv(Run(s, acts)) && UnderWayOrQueued(Run(s, acts), f)
    ensures InBatch(Run(s, acts).pc)
    decreases |acts|
  {
    if acts != [] {
      var n := Next(s, acts[0]);
      NextInv(s, acts[0]);
      BatchStep(s, acts[0]);
      if acts[0].Step? {
        OneCaller(s, acts[0].t);
      }
      EnqueueUnderWay(n, f, acts[1..]);
    }
  }

  // --- The mutex ------------------------------------------------------------------------------

  /** The next step of the thread that holds the mutex. */
  function HolderAction(s: State): Action
    requires s.mutex.Some?
  {
    var t := s.mutex.value;
    if t < |s.callers| && s.callers[t] != Idle then Step(t) else LoopStep
  }

  /** The holder releases the mutex in at most k steps of its own, each of them enabled. */
  predicate Releases(s: State, k: nat)
    decreases k
  {
    s.mutex == None || (k > 0 && Enabled(s, HolderAction(s)) && Releases(Next(s, HolderAction(s)), k - 1))
  }

  /** No deadlock on the queue's mutex: whoever holds it is at most two enabled steps from releasing it;
      no thread holds it while it writes the eventfd, and the loop thread never while it runs user code,
      so a functor or handler may call queueInLoop on its own loop. */
  lemma NoSelfDeadlock(s: State)
    requires Reachable(s)
    ensures Releases(s, 2)
    ensures forall t: Tid | t < |s.callers| && s.callers[t].Wake? :: s.mutex != Some(t)
    ensures forall t: Tid | CanCall(s, t) || (t < |s.callers| && s.callers[t].WantPush?) :: s.mutex != Some(t)
  {
    ReachableInv(s);
    forall t: Tid | s.mutex == Some(t)
      ensures Holding(s, t)
    {
    }
    if s.mutex.Some? {
      assert Holding(s, s.mutex.value);
      HolderReleases(s);
    }
  }

  lemma HolderReleases(s: State)
    requires Locking(s) && Flags(s) && s.mutex.Some? && Holding(s, s.mutex.value)
    ensures Releases(s, 2)
  {
    var n := Next(s, HolderAction(s));
    if n.mutex.Some? {
      assert n.mutex == s.mutex;
      assert Next(n, HolderAction(n)).mutex == None;
    }
    assert Releases(n, 1);
  }

  /** Nobody else disturbs the holder: any other step leaves it the mutex and its own next step. */
  lemma HolderUndisturbed(s: State, a: Action)
    requires Reachable(s) && s.mutex.Some? && Enabled(s, a) && a != HolderAction(s)
    ensures Next(s, a).mutex == s.mutex && HolderAction(Next(s, a)) == HolderAction(s)
    ensures Enabled(Next(s, a), HolderAction(s))
  {
    ReachableInv(s);
    assert Holding(s, s.mutex.value);
    assert Holding(s, LOOP) <==> s.mutex == Some(LOOP);
    match a
    case Step(t) =>
      assert Holding(s, t) <==> s.mutex == Some(t);
      OthersCallKeepsMutex(s, t);
      OneCaller(s, t);
    case LoopStep => LoopKeepsMutex(s);
    case _ =>
  }

  lemma OthersCallKeepsMutex(s: State, t: Tid)
    requires Enabled(s, Step(t)) && s.mutex.Some? && !Holding(s, t)
    ensures CallStep(s, t).mutex == s.mutex
  {
  }

  lemma LoopKeepsMutex(s: State)
    requires Enabled(s, LoopStep) && s.mutex.Some? && !Holding(s, LOOP)
    ensures LoopNext(s).mutex == s.mutex && LoopNext(s).callers == s.callers
  {
  }

  // --- Quit -----------------------------------------------------------------------------------

  /** A set `_quit` is never slept on: a loop in poll has been woken or a quitter is about to. */
  lemma QuitNotLost(s: State)
    requires Reachable(s) && s.quit && s.pc == AtPoll
    ensures s.wakeups > 0 || exists t: Tid :: Quitting(s, t)
  {
    ReachableInv(s);
  }

  function Polls(acts: seq<Action>): nat {
    if acts == [] then 0 else (if acts[0].Poll? then 1 else 0) + Polls(acts[1..])
  }

  /** Once `_quit` is set, poll returns at most once more in any run, and not at all unless the loop
      was already at poll; in particular not when the loop thread itself called quit. */
  lemma {:induction false} QuitBounded(s: State, acts: seq<Action>)
    requires CanRun(s, acts) && s.quit
    ensures Polls(acts) <= (if s.pc == AtPoll then 1 else 0)
    decreases |acts|
  {
    if acts != [] {
      QuitBounded(Next(s, acts[0]), acts[1..]);
    }
  }

  lemma QuitOnLoopThread(s: State, acts: seq<Action>)
    requires CanCall(s, LOOP) && CanRun(Next(s, Quit(LOOP)), acts)
    ensures Polls(acts) == 0
  {
    QuitBounded(Next(s, Quit(LOOP)), acts);
  }

  /** Functor p has run, or loop() will still take it: it is in the batch, or a swap is to come. */
  predicate StillTaken(s: State, p: nat) {
    p < |s.hist.executed| + |s.batch| || WillSwap(s.pc) || s.pc == AtPoll
  }

  lemma StillTakenStep(s: State, a: Action, p: nat)
    requires Inv(s) && s.quit && p < |s.hist.queued| && Enabled(s, a)
    ensures Next(s, a).quit && p < |Next(s, a).hist.queued|
    ensures StillTaken(Next(s, a), p) <==> StillTaken(s, p)
  {
    if a.Step? {
      OneCaller(s, a.t);
    } else if a == LoopStep {
      match s.pc
      case Outside =>
      case TestQuit =>
      case Dispatch(_) =>
      case InHandler(_, _) =>
      case WantSwap =>
      case HoldSwap =>
      case Swapped =>
      case RunBatch =>
      case InFunctor =>
      case Timers =>
    }
  }

  /** What quit abandons: once `_quit` is set, in every run that ends loop(), whatever else is called
      meanwhile, a functor pushed before has run if and only if it had run or was in the batch, or the
      loop was then in poll or between poll and the swap. Covered or not makes no difference. */
  lemma {:induction false} RunsUnlessAbandoned(s: State, acts: seq<Action>, p: nat)
    requires Inv(s) && s.quit && p < |s.hist.queued| && CanRun(s, acts) && Run(s, acts).pc == Done
    ensures p < |Run(s, acts).hist.executed| <==> StillTaken(s, p)
    decreases |acts|
  {
    if acts != [] {
      StillTakenStep(s, acts[0], p);
      NextInv(s, acts[0]);
      RunsUnlessAbandoned(Next(s, acts[0]), acts[1..], p);
    }
  }

  /** Another thread hands over a functor, wakes the loop and then quits it. */
  function HandOverAndQuit(t: Tid, tag: nat): seq<Action> {
    WholeCall(t, tag) + [Step(t), Quit(t), Step(t), Step(t), LoopStep]
  }

  /** A functor that was handed over and woken for is abandoned whenever its thread goes on to quit the
      loop while the loop is at its `_quit` test. */
  lemma QuitAbandons(s: State, t: Tid, tag: nat)
    requires Inv(s) && s.pc == TestQuit && s.mutex == None && CanCall(s, t) && !IsLoopThread(t)
    ensures CanRun(s, HandOverAndQuit(t, tag))
    ensures var r, f := Run(s, HandOverAndQuit(t, tag)), Functor(t, FromForeign, tag);
            r.pc == Done && r.functorList == s.functorList + [f] && Covered(f) && r.wakeups > 0
            && r.callers == s.callers
  {
    RunFive(s, Queue(t, tag), Step(t), Step(t), Step(t), Step(t));
    var m := Run(s, WholeCall(t, tag));
    assert m == s.(callers := s.callers[t := Wake(false)], functorList := m.functorList, hist := m.hist);
    WakeAndQuit(m, t);
    RunConcat(s, WholeCall(t, tag), [Step(t), Quit(t), Step(t), Step(t), LoopStep]);
    assert m.callers[t := Idle] == s.callers;
  }

  lemma WakeAndQuit(s: State, t: Tid)
    requires s.pc == TestQuit && t < |s.callers| == |s.hist.asked| && s.callers[t] == Wake(false)
    requires !IsLoopThread(t) && s.callers[LOOP] == Idle
    ensures var acts := [Step(t), Quit(t), Step(t), Step(t), LoopStep];
            && CanRun(s, acts) && Run(s, acts).pc == Done && Run(s, acts).functorList == s.functorList
            && Run(s, acts).wakeups > 0 && Run(s, acts).callers == s.callers[t := Idle]
  {
    RunFive(s, Step(t), Quit(t), Step(t), Step(t), LoopStep);
  }

  /** It does happen, from a fresh loop and with everybody idle at the end. */
  lemma AbandonedIsReachable(tag: nat) returns (s: State)
    ensures Reachable(s) && s.pc == Done && s.callers == [Idle, Idle]
    ensures s.functorList == [Functor(1, FromForeign, tag)] && Covered(s.functorList[0])
  {
    var s0 := Init(2, false);
    InitInv(2, false);
    NextInv(s0, LoopStep);
    RunSnoc(s0, [], LoopStep);
    assert [] + [LoopStep] == [LoopStep];
    var s1 := Run(s0, [LoopStep]);
    QuitAbandons(s1, 1, tag);
    RunConcat(s0, [LoopStep], HandOverAndQuit(1, tag));
    s := Run(s1, HandOverAndQuit(1, tag));
  }
}
