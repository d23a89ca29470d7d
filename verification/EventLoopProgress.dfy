/** Progress: with no further calls, every covered functor runs and a set `_quit` ends the loop,
    under any scheduler and any I/O events. */
module EventLoopProgress {
  import opened Options
  import opened EventLoopModel
  import opened EventLoopInvariant
  import opened EventLoopTheorems

  /** How far a call is from its end. */
  function CallLeft(c: CallPc): nat {
    match c
    case Idle => 0
    case WantPush(_) => 5
    case HoldPush(_) => 4
    case Pushed => 3
    case Decide => 2
    case QuitDecide => 2
    case Wake(_) => 1
  }

  function CallsLeft(cs: seq<CallPc>): nat {
    if cs == [] then 0 else CallsLeft(cs[..|cs| - 1]) + CallLeft(cs[|cs| - 1])
  }

  lemma {:induction false} CallsLeftUpdate(cs: seq<CallPc>, t: Tid, c: CallPc)
    requires t < |cs|
    ensures CallsLeft(cs[t := c]) == CallsLeft(cs) - CallLeft(cs[t]) + CallLeft(c)
  {
    var k := |cs| - 1;
    if t == k {
      assert cs[t := c][..k] == cs[..k];
    } else {
      assert cs[t := c][..k] == cs[..k][t := c];
      CallsLeftUpdate(cs[..k], t, c);
    }
  }

  /** How far loop() is from its next poll, or from the swap when that comes first. */
  function LoopLeft(s: State): nat {
    match s.pc
    case Dispatch(todo) => 2 * |todo| + 4
    case InHandler(_, todo) => 2 * |todo| + 5
    case WantSwap => 3
    case HoldSwap => 2
    case Swapped => 2 * |s.batch| + 6
    case RunBatch => 2 * |s.batch| + 5
    case InFunctor => 2 * |s.batch| + 6
    case Timers => 4
    case Outside => 4
    case TestQuit => 3
    case AtPoll => 2
    case Done => 0
  }

  /** What still has to happen to the functor pushed p-th: 3 the next poll, 2 the swap, 1 its turn in
      the batch, 0 nothing. */
  function Stage(s: State, p: nat): nat {
    if p < |s.hist.executed| then 0
    else if p < |s.hist.executed| + |s.batch| then 1
    else if WillSwap(s.pc) then 2
    else 3
  }

  lemma CallStepMeasure(s: State, t: Tid)
    requires Enabled(s, Step(t))
    ensures var n := CallStep(s, t);
            && n.pc == s.pc && n.batch == s.batch && n.quit == s.quit
            && n.hist.executed == s.hist.executed && s.hist.queued <= n.hist.queued
            && CallsLeft(n.callers) < CallsLeft(s.callers)
  {
    OneCaller(s, t);
    var n := CallStep(s, t);
    assert n.callers == s.callers[t := n.callers[t]];
    CallsLeftUpdate(s.callers, t, n.callers[t]);
  }

  /** The lexicographic measure of a state: how far the watched event is, then loop(), then calls. */
  ghost predicate Less(stage: nat, loop: nat, calls: nat, stage0: nat, loop0: nat, calls0: nat) {
    stage < stage0 || (stage == stage0 && (loop < loop0 || (loop == loop0 && calls < calls0)))
  }

  /** Every internal step brings an unrun functor nearer, whoever takes it and whatever poll reports. */
  lemma FunctorNearer(s: State, a: Action, p: nat)
    requires Inv(s) && Enabled(s, a) && Internal(a) && |s.hist.executed| <= p < |s.hist.queued|
    ensures var n := Next(s, a);
            && s.hist.queued <= n.hist.queued && n.quit == s.quit
            && Less(Stage(n, p), LoopLeft(n), CallsLeft(n.callers), Stage(s, p), LoopLeft(s), CallsLeft(s.callers))
  {
    if a.Step? {
      CallStepMeasure(s, a.t);
    } else if a == LoopStep {
      LoopStepNearer(s, p);
    }
  }

  lemma LoopStepNearer(s: State, p: nat)
    requires Inv(s) && Enabled(s, LoopStep) && |s.hist.executed| <= p < |s.hist.queued|
    ensures var n := LoopNext(s);
            && n.hist.queued == s.hist.queued && n.quit == s.quit && n.callers == s.callers
            && (Stage(n, p) < Stage(s, p) || (Stage(n, p) == Stage(s, p) && LoopLeft(n) < LoopLeft(s)))
  {
    match s.pc
    case Outside =>
    case TestQuit =>
    case Dispatch(todo) =>
    case InHandler(_, todo) =>
    case WantSwap =>
    case HoldSwap =>
    case Swapped =>
    case RunBatch =>
    case InFunctor =>
    case Timers =>
  }

  /** As long as a covered functor has not run, some internal step is enabled. */
  lemma FunctorNotStuck(s: State, p: nat) returns (a: Action)
    requires Inv(s) && !s.quit && s.pc != Done
    requires |s.hist.executed| <= p < |s.hist.queued| && Covered(s.hist.queued[p])
    ensures Internal(a) && Enabled(s, a)
  {
    if s.mutex.Some? {
      a := HolderCanStep(s);
    } else if s.callers[LOOP] != Idle {
      a := Step(LOOP);
    } else if s.pc != AtPoll {
      a := LoopStep;
    } else if s.wakeups > 0 {
      a := Poll([WakeupChannel]);
    } else {
      assert s.hist.queued[p] == s.functorList[p - |s.hist.executed|];
      var f := s.functorList[p - |s.hist.executed|];
      assert f in s.functorList;
      assert Waking(s, f.caller);
      a := Step(f.caller);
    }
  }

  lemma HolderCanStep(s: State) returns (a: Action)
    requires Inv(s) && s.mutex.Some?
    ensures Internal(a) && Enabled(s, a)
  {
    var t := s.mutex.value;
    assert Holding(s, t);
    a := if s.callers[t] != Idle then Step(t) else LoopStep;
  }

  /** A scheduler: in every state where some internal step is enabled it picks one. */
  ghost predicate Schedules(sched: State -> Action) {
    forall s: State, a: Action ::
      Internal(a) && Enabled(s, a) ==> Internal(sched(s)) && Enabled(s, sched(s))
  }

  ghost predicate Follows(s: State, acts: seq<Action>, sched: State -> Action)
    decreases |acts|
  {
    acts == []
    || (acts[0] == sched(s) && Enabled(s, acts[0]) && Follows(Next(s, acts[0]), acts[1..], sched))
  }

  lemma Following(s: State, sched: State -> Action, acts: seq<Action>)
    requires Enabled(s, sched(s)) && CanRun(Next(s, sched(s)), acts)
    requires Follows(Next(s, sched(s)), acts, sched)
    ensures CanRun(s, [sched(s)] + acts) && Follows(s, [sched(s)] + acts, sched)
    ensures Run(s, [sched(s)] + acts) == Run(Next(s, sched(s)), acts)
  {
    assert ([sched(s)] + acts)[1..] == acts;
  }

  /** Every covered functor runs: from any state of the protocol with `_quit` unset, any scheduler
      reaches, in finitely many steps, a state in which the functor pushed p-th, and with it every
      functor pushed before it, has been run. */
  lemma {:induction false} EveryCoveredFunctorRuns(s: State, p: nat, sched: State -> Action)
    returns (acts: seq<Action>)
    requires Inv(s) && !s.quit && s.pc != Done && Schedules(sched)
    requires p < |s.hist.queued| && Covered(s.hist.queued[p])
    ensures CanRun(s, acts) && Follows(s, acts, sched)
    ensures Inv(Run(s, acts)) && s.hist.queued[..p + 1] <= Run(s, acts).hist.executed
    decreases Stage(s, p), LoopLeft(s), CallsLeft(s.callers)
  {
    if p < |s.hist.executed| {
      acts := [];
    } else {
      var some := FunctorNotStuck(s, p);
      var a := sched(s);
      assert Internal(a) && Enabled(s, a);
      FunctorNearer(s, a, p);
      NextInv(s, a);
      assert Next(s, a).hist.queued[..p + 1] == s.hist.queued[..p + 1];
      var rest := EveryCoveredFunctorRuns(Next(s, a), p, sched);
      Following(s, sched, rest);
      acts := [a] + rest;
    }
  }

  /** In particular a connection's hand-over runs: another thread's queueInLoop, or the loop's own from
      the accepting handler, once it has pushed. */
  lemma HandOverRuns(s: State, t: Tid, sched: State -> Action) returns (acts: seq<Action>)
    requires Inv(s) && !s.quit && s.pc != Done && Schedules(sched)
    requires Enabled(s, Step(t)) && s.callers[t].HoldPush? && (!IsLoopThread(t) || s.pc.InHandler?)
    ensures CanRun(Next(s, Step(t)), acts) && Follows(Next(s, Step(t)), acts, sched)
    ensures s.hist.queued + [s.callers[t].f] <= Run(Next(s, Step(t)), acts).hist.executed
  {
    assert Named(s.callers[t], t, s.pc);
    NextInv(s, Step(t));
    var n := Next(s, Step(t));
    acts := EveryCoveredFunctorRuns(n, |s.hist.queued|, sched);
    assert n.hist.queued[..|s.hist.queued| + 1] == s.hist.queued + [s.callers[t].f];
  }

  // --- Leaving poll ---------------------------------------------------------------------------

  /** A run in which calls under way go on, no new call starts, and no I/O event is reported. */
  predicate Silent(s: State, acts: seq<Action>) {
    CanRun(s, acts)
    && forall a | a in acts :: Internal(a) && (a.Poll? ==> forall c | c in a.ready :: c == WakeupChannel)
  }

  predicate Busy(s: State, t: Tid) {
    t < |s.callers| && s.callers[t] != Idle
  }

  /** Without a poll timeout, and with no further call and no I/O, the loop gets out of poll if and only
      if its eventfd was written or some thread is inside a call: every call that has started writes. */
  lemma BlockedIff(s: State)
    requires Inv(s) && s.pc == AtPoll && !s.timed
    ensures (exists acts :: Silent(s, acts) && Run(s, acts).pc != AtPoll)
            <==> (s.wakeups > 0 || exists t: Tid :: Busy(s, t))
  {
    if s.wakeups > 0 || exists t: Tid :: Busy(s, t) {
      var acts := LeavesPoll(s);
    } else {
      forall acts | Silent(s, acts)
        ensures acts == []
      {
        if acts != [] {
          NothingSilent(s, acts[0]);
        }
      }
    }
  }

  lemma NothingSilent(s: State, a: Action)
    requires s.pc == AtPoll && !s.timed && s.wakeups == 0 && forall t: Tid :: !Busy(s, t)
    requires Enabled(s, a) && Internal(a)
    ensures a.Poll? && exists c :: c in a.ready && c != WakeupChannel
  {
    assert a.Step? ==> Busy(s, a.t);
    assert a.ready[0] in a.ready;
  }

  lemma {:induction false} LeavesPoll(s: State) returns (acts: seq<Action>)
    requires Inv(s) && s.pc == AtPoll && (s.wakeups > 0 || exists t: Tid :: Busy(s, t))
    ensures Silent(s, acts) && Run(s, acts).pc != AtPoll
    decreases CallsLeft(s.callers)
  {
    if s.wakeups > 0 {
      var a := Poll([WakeupChannel]);
      assert CanRun(Next(s, a), []);
      acts := [a];
      assert acts[1..] == [];
    } else {
      var a := ACallGoesOn(s);
      NextInv(s, a);
      CallStepMeasure(s, a.t);
      var rest := LeavesPoll(Next(s, a));
      acts := [a] + rest;
      assert acts[1..] == rest;
    }
  }

  lemma ACallGoesOn(s: State) returns (a: Action)
    requires Inv(s) && s.pc == AtPoll && exists t: Tid :: Busy(s, t)
    ensures a.Step? && Enabled(s, a)
    ensures Next(s, a).wakeups > 0 || exists t: Tid :: Busy(Next(s, a), t)
  {
    if s.mutex.Some? {
      assert Holding(s, s.mutex.value);
      a := Step(s.mutex.value);
    } else {
      var t: Tid :| Busy(s, t);
      a := Step(t);
    }
    OneCaller(s, a.t);
    if s.callers[a.t].Wake? {
      assert Next(s, a).wakeups > 0;
    } else {
      assert Busy(Next(s, a), a.t);
    }
  }

  // --- Quit ends the loop ---------------------------------------------------------------------

  function QuitStage(s: State): nat {
    match s.pc
    case Done => 0
    case AtPoll => 3
    case _ => if WillSwap(s.pc) then 2 else 1
  }

  lemma QuitNearer(s: State, a: Action)
    requires Inv(s) && Enabled(s, a) && Internal(a) && s.quit && s.pc != Done
    ensures var n := Next(s, a);
            && n.quit
            && Less(QuitStage(n), LoopLeft(n), CallsLeft(n.callers),
                    QuitStage(s), LoopLeft(s), CallsLeft(s.callers))
  {
    if a.Step? {
      CallStepMeasure(s, a.t);
    } else if a == LoopStep {
      match s.pc
      case Outside =>
      case TestQuit =>
      case Dispatch(todo) =>
      case InHandler(_, todo) =>
      case WantSwap =>
      case HoldSwap =>
      case Swapped =>
      case RunBatch =>
      case InFunctor =>
      case Timers =>
    }
  }

  lemma QuitNotStuck(s: State) returns (a: Action)
    requires Inv(s) && s.quit && s.pc != Done
    ensures Internal(a) && Enabled(s, a)
  {
    if s.mutex.Some? {
      a := HolderCanStep(s);
    } else if s.callers[LOOP] != Idle {
      a := Step(LOOP);
    } else if s.pc != AtPoll {
      a := LoopStep;
    } else if s.wakeups > 0 {
      a := Poll([WakeupChannel]);
    } else {
      var t: Tid :| Quitting(s, t);
      a := Step(t);
    }
  }

  /** Once `_quit` is set, loop() returns under any scheduler. */
  lemma {:induction false} QuitEndsLoop(s: State, sched: State -> Action) returns (acts: seq<Action>)
    requires Inv(s) && s.quit && Schedules(sched)
    ensures CanRun(s, acts) && Follows(s, acts, sched) && Run(s, acts).pc == Done
    decreases QuitStage(s), LoopLeft(s), CallsLeft(s.callers)
  {
    if s.pc == Done {
      acts := [];
    } else {
      var some := QuitNotStuck(s);
      var a := sched(s);
      assert Internal(a) && Enabled(s, a);
      QuitNearer(s, a);
      NextInv(s, a);
      var rest := QuitEndsLoop(Next(s, a), sched);
      Following(s, sched, rest);
      acts := [a] + rest;
    }
  }

  /** With `_quit` set, any scheduler ends loop(), and a functor pushed before has then run if and only
      if it was still to be taken when `_quit` was set. */
  lemma QuitDecides(s: State, p: nat, sched: State -> Action) returns (acts: seq<Action>)
    requires Inv(s) && s.quit && Schedules(sched) && p < |s.hist.queued|
    ensures CanRun(s, acts) && Follows(s, acts, sched) && Run(s, acts).pc == Done
    ensures p < |Run(s, acts).hist.executed| <==> StillTaken(s, p)
  {
    acts := QuitEndsLoop(s, sched);
    RunsUnlessAbandoned(s, acts, p);
  }
}
