/** The countdown latch, its mutex and its condition variable, at the granularity of locking, testing,
    sleeping and waking; any number of threads, each in one `wait` or one `CountDown`. */
module CountLatchModel {
  import opened Options

  type Tid = nat

  datatype Pc =
    | WantWait        // wait(): before the lock
    | Test            // mutex held, before testing _latch
    | Asleep          // in pthread_cond_wait, mutex released
    | Woken           // woken, before taking the mutex again
    | Leave           // mutex held, saw zero
    | Returned
    | WantCount       // CountDown(): before the lock
    | Count           // mutex held, before the decrement
    | TestCount       // mutex held, after the decrement
    | LeaveCount      // mutex held, after the test and any notifyAll
    | Counted

  datatype State = State(init: int, latch: int, mutex: Option<Tid>, pcs: seq<Pc>)

  datatype Action = Step(t: Tid) | Spurious(t: Tid)

  predicate Waiter(pc: Pc) {
    pc.WantWait? || pc.Test? || pc.Asleep? || pc.Woken? || pc.Leave? || pc.Returned?
  }

  predicate Fresh(pcs: seq<Pc>) {
    forall t | 0 <= t < |pcs| :: pcs[t] == WantWait || pcs[t] == WantCount
  }

  function Init(count: int, pcs: seq<Pc>): State {
    State(count, count, None, pcs)
  }

  predicate WantsLock(pc: Pc) {
    pc.WantWait? || pc.Woken? || pc.WantCount?
  }

  predicate Finished(pc: Pc) {
    pc.Returned? || pc.Counted?
  }

  predicate Enabled(s: State, a: Action) {
    a.t < |s.pcs|
    && match a
       case Step(t) => !Finished(s.pcs[t]) && s.pcs[t] != Asleep && (WantsLock(s.pcs[t]) ==> s.mutex == None)
       case Spurious(t) => s.pcs[t] == Asleep
  }

  /** pthread_cond_broadcast. */
  function WakeAll(pcs: seq<Pc>): (r: seq<Pc>)
    ensures |r| == |pcs|
    ensures forall t | 0 <= t < |pcs| :: r[t] == if pcs[t] == Asleep then Woken else pcs[t]
  {
    seq(|pcs|, t requires 0 <= t < |pcs| => if pcs[t] == Asleep then Woken else pcs[t])
  }

  function Next(s: State, a: Action): State
    requires Enabled(s, a)
  {
    match a
    case Spurious(t) => s.(pcs := s.pcs[t := Woken])
    case Step(t) =>
      match s.pcs[t]
      case WantWait => s.(mutex := Some(t), pcs := s.pcs[t := Test])
      case Woken => s.(mutex := Some(t), pcs := s.pcs[t := Test])
      case Test =>
        if s.latch != 0 then s.(mutex := None, pcs := s.pcs[t := Asleep])
        else s.(pcs := s.pcs[t := Leave])
      case Leave => s.(mutex := None, pcs := s.pcs[t := Returned])
      case WantCount => s.(mutex := Some(t), pcs := s.pcs[t := Count])
      case Count => s.(latch := s.latch - 1, pcs := s.pcs[t := TestCount])
      case TestCount => s.(pcs := (if s.latch == 0 then WakeAll(s.pcs) else s.pcs)[t := LeaveCount])
      case LeaveCount => s.(mutex := None, pcs := s.pcs[t := Counted])
  }

  predicate CanRun(s: State, acts: seq<Action>)
    decreases |acts|
  {
    acts == [] || (Enabled(s, acts[0]) && CanRun(Next(s, acts[0]), acts[1..]))
  }

  function Run(s: State, acts: seq<Action>): State
    requires CanRun(s, acts)
    decreases |acts|
  {
    if acts == [] then s else Run(Next(s, acts[0]), acts[1..])
  }

  // --- Counting threads -----------------------------------------------------------------------

  function Sum(pcs: seq<Pc>, w: Pc -> nat): nat {
    if pcs == [] then 0 else Sum(pcs[..|pcs| - 1], w) + w(pcs[|pcs| - 1])
  }

  lemma {:induction false} SumUpdate(pcs: seq<Pc>, w: Pc -> nat, t: Tid, pc: Pc)
    requires t < |pcs|
    ensures Sum(pcs[t := pc], w) == Sum(pcs, w) - w(pcs[t]) + w(pc)
  {
    var k := |pcs| - 1;
    if t == k {
      assert pcs[t := pc][..k] == pcs[..k];
    } else {
      assert pcs[t := pc][..k] == pcs[..k][t := pc];
      SumUpdate(pcs[..k], w, t, pc);
    }
  }

  lemma {:induction false} SumSame(a: seq<Pc>, b: seq<Pc>, w: Pc -> nat)
    requires |a| == |b| && forall t | 0 <= t < |a| :: w(a[t]) == w(b[t])
    ensures Sum(a, w) == Sum(b, w)
  {
    if a != [] {
      SumSame(a[..|a| - 1], b[..|b| - 1], w);
    }
  }

  lemma {:induction false} SumAtMost(pcs: seq<Pc>, v: Pc -> nat, w: Pc -> nat)
    requires forall pc :: v(pc) <= w(pc)
    ensures Sum(pcs, v) <= Sum(pcs, w)
    ensures Sum(pcs, v) == Sum(pcs, w) <==> forall t | 0 <= t < |pcs| :: v(pcs[t]) == w(pcs[t])
  {
    if pcs != [] {
      var k := |pcs| - 1;
      SumAtMost(pcs[..k], v, w);
      assert forall t | 0 <= t < k :: pcs[..k][t] == pcs[t];
    }
  }

  /** One for a thread that has decremented the latch. */
  function Decremented(pc: Pc): nat {
    if pc.TestCount? || pc.LeaveCount? || pc.Counted? then 1 else 0
  }

  /** One for a thread in CountDown. */
  function Counter(pc: Pc): nat {
    if Waiter(pc) then 0 else 1
  }

  function Decrements(s: State): nat {
    Sum(s.pcs, Decremented)
  }

  /** How many CountDown calls there are in all. */
  function Calls(s: State): nat {
    Sum(s.pcs, Counter)
  }

  // --- The invariant --------------------------------------------------------------------------

  predicate Holding(pc: Pc) {
    pc.Test? || pc.Leave? || pc.Count? || pc.TestCount? || pc.LeaveCount?
  }

  ghost predicate Locking(s: State) {
    forall t: Tid | t < |s.pcs| :: Holding(s.pcs[t]) <==> s.mutex == Some(t)
  }

  ghost predicate Owner(s: State) {
    s.mutex.Some? ==> s.mutex.value < |s.pcs|
  }

  /** At zero, and with its notifyAll not still to come, nobody sleeps. */
  ghost predicate NoSleeperAtZero(s: State) {
    s.latch == 0 && (forall t | 0 <= t < |s.pcs| :: s.pcs[t] != TestCount)
    ==> forall t | 0 <= t < |s.pcs| :: s.pcs[t] != Asleep
  }

  ghost predicate ReturnedAfterZero(s: State) {
    forall t | 0 <= t < |s.pcs| && (s.pcs[t] == Leave || s.pcs[t] == Returned) :: s.latch <= 0
  }

  ghost predicate Inv(s: State) {
    && Locking(s) && Owner(s)
    && s.latch == s.init - Decrements(s)
    && NoSleeperAtZero(s)
    && ReturnedAfterZero(s)
  }

  lemma {:induction false} FreshSum(pcs: seq<Pc>)
    requires Fresh(pcs)
    ensures Sum(pcs, Decremented) == 0
  {
    if pcs != [] {
      FreshSum(pcs[..|pcs| - 1]);
    }
  }

  lemma InitInv(count: int, pcs: seq<Pc>)
    requires Fresh(pcs)
    ensures Inv(Init(count, pcs))
  {
    FreshSum(pcs);
  }

  /** A step changes its own thread; the broadcast also changes sleepers to woken. */
  lemma SumNext(s: State, a: Action, w: Pc -> nat)
    requires Enabled(s, a)
    requires w(Asleep) == w(Woken) || a.Spurious? || s.pcs[a.t] != TestCount || s.latch != 0
    ensures |Next(s, a).pcs| == |s.pcs|
    ensures Sum(Next(s, a).pcs, w) == Sum(s.pcs, w) - w(s.pcs[a.t]) + w(Next(s, a).pcs[a.t])
  {
    var pc := Next(s, a).pcs[a.t];
    if a.Step? && s.pcs[a.t] == TestCount && s.latch == 0 {
      assert Next(s, a).pcs == WakeAll(s.pcs)[a.t := pc];
      SumSame(WakeAll(s.pcs), s.pcs, w);
      SumUpdate(WakeAll(s.pcs), w, a.t, pc);
    } else {
      assert Next(s, a).pcs == s.pcs[a.t := pc];
      SumUpdate(s.pcs, w, a.t, pc);
    }
  }

  lemma NextCounts(s: State, a: Action)
    requires Enabled(s, a)
    ensures Calls(Next(s, a)) == Calls(s)
    ensures Next(s, a).init == s.init && |Next(s, a).pcs| == |s.pcs|
    ensures s.latch == s.init - Decrements(s) ==> Next(s, a).latch == s.init - Decrements(Next(s, a))
  {
    SumNext(s, a, Counter);
    SumNext(s, a, Decremented);
  }

  lemma NextInv(s: State, a: Action)
    requires Inv(s) && Enabled(s, a)
    ensures Inv(Next(s, a))
  {
    NextCounts(s, a);
  }

  lemma {:induction false} RunInv(s: State, acts: seq<Action>)
    requires Inv(s) && CanRun(s, acts)
    ensures Inv(Run(s, acts)) && Run(s, acts).init == s.init && Calls(Run(s, acts)) == Calls(s)
    ensures |Run(s, acts).pcs| == |s.pcs|
    decreases |acts|
  {
    if acts != [] {
      NextInv(s, acts[0]);
      NextCounts(s, acts[0]);
      RunInv(Next(s, acts[0]), acts[1..]);
    }
  }

  // --- What the latch guarantees --------------------------------------------------------------

  ghost predicate Reachable(s: State, count: int, pcs: seq<Pc>) {
    Fresh(pcs) && exists acts: seq<Action> :: CanRun(Init(count, pcs), acts) && s == Run(Init(count, pcs), acts)
  }

  lemma ReachableInv(s: State, count: int, pcs: seq<Pc>)
    requires Reachable(s, count, pcs)
    ensures Inv(s) && s.init == count && Calls(s) == Sum(pcs, Counter) && |s.pcs| == |pcs|
  {
    var acts: seq<Action> :| CanRun(Init(count, pcs), acts) && s == Run(Init(count, pcs), acts);
    InitInv(count, pcs);
    RunInv(Init(count, pcs), acts);
  }

  /** No `wait` returns before the count-th CountDown has decremented the latch, whatever the number
      of CountDown calls, waiters and spurious wakeups. */
  lemma NoEarlyReturn(s: State, count: int, pcs: seq<Pc>, t: Tid)
    requires Reachable(s, count, pcs) && t < |s.pcs| && (s.pcs[t] == Leave || s.pcs[t] == Returned)
    ensures Decrements(s) >= count
  {
    ReachableInv(s, count, pcs);
  }

  ghost predicate AllCounted(s: State) {
    forall t | 0 <= t < |s.pcs| :: Waiter(s.pcs[t]) || s.pcs[t] == Counted
  }

  lemma CountedAll(s: State)
    requires AllCounted(s)
    ensures Decrements(s) == Calls(s)
  {
    SumAtMost(s.pcs, Decremented, Counter);
  }

  lemma {:induction false} StaysReleased(s: State, acts: seq<Action>)
    requires Inv(s) && Calls(s) == s.init && AllCounted(s) && CanRun(s, acts)
    ensures AllCounted(Run(s, acts)) && forall t | 0 <= t < |Run(s, acts).pcs| :: Run(s, acts).pcs[t] != Asleep
    ensures forall a | a in acts :: a.Step?
    decreases |acts|
  {
    CountedAll(s);
    if acts != [] {
      NextInv(s, acts[0]);
      NextCounts(s, acts[0]);
      StaysReleased(Next(s, acts[0]), acts[1..]);
    }
  }

  /** Release: with as many CountDown calls as the initial count, once they are all over no waiter is
      asleep, none is in any run from there, and no spurious wakeup can occur in one. */
  lemma ReleasedForGood(s: State, count: int, pcs: seq<Pc>, acts: seq<Action>)
    requires Reachable(s, count, pcs) && Sum(pcs, Counter) == count && AllCounted(s) && CanRun(s, acts)
    ensures forall t | 0 <= t < |Run(s, acts).pcs| :: Run(s, acts).pcs[t] != Asleep
    ensures forall a | a in acts :: a.Step?
  {
    ReachableInv(s, count, pcs);
    StaysReleased(s, acts);
  }

  /** A waiter that gets the lock after the last CountDown returns if and only if the number of
      CountDown calls was the initial count; otherwise it goes (back) to sleep. */
  lemma LateWaiterIff(s: State, count: int, pcs: seq<Pc>, t: Tid)
    requires Reachable(s, count, pcs) && AllCounted(s)
    requires t < |s.pcs| && (s.pcs[t] == WantWait || s.pcs[t] == Woken) && s.mutex == None
    ensures Enabled(s, Step(t)) && Enabled(Next(s, Step(t)), Step(t))
    ensures var r := Next(Next(s, Step(t)), Step(t));
            && (r.pcs[t] == Leave <==> Sum(pcs, Counter) == count)
            && (r.pcs[t] == Asleep <==> Sum(pcs, Counter) != count)
  {
    ReachableInv(s, count, pcs);
    CountedAll(s);
  }

  lemma WakeStep(s: State, a: Action, t: Tid)
    requires Enabled(s, a) && t < |s.pcs| && s.pcs[t] == Asleep && a != Spurious(t)
    ensures t < |Next(s, a).pcs| && Next(s, a).latch <= s.latch
    ensures Next(s, a).pcs[t] == Asleep || (Next(s, a).pcs[t] == Woken && s.latch == 0)
  {
  }

  lemma {:induction false} LatchOnlyFalls(s: State, acts: seq<Action>)
    requires CanRun(s, acts)
    ensures Run(s, acts).latch <= s.latch
    decreases |acts|
  {
    if acts != [] {
      LatchOnlyFalls(Next(s, acts[0]), acts[1..]);
    }
  }

  /** A sleeper is woken by the latch reaching zero and by nothing else: in any run without a spurious
      wakeup of its own it sleeps on, unless the latch is at zero at some moment of the run. In
      particular, below zero nobody is ever woken again. */
  lemma {:induction false} WokenOnlyAtZero(s: State, acts: seq<Action>, t: Tid)
    requires CanRun(s, acts) && t < |s.pcs| && s.pcs[t] == Asleep && Spurious(t) !in acts
    requires s.latch < 0 || Run(s, acts).latch > 0
    ensures t < |Run(s, acts).pcs| && Run(s, acts).pcs[t] == Asleep
    decreases |acts|
  {
    if acts != [] {
      LatchOnlyFalls(s, acts);
      LatchOnlyFalls(Next(s, acts[0]), acts[1..]);
      WakeStep(s, acts[0], t);
      WokenOnlyAtZero(Next(s, acts[0]), acts[1..], t);
    }
  }

  // --- Everyone returns -----------------------------------------------------------------------

  function CountLeft(pc: Pc): nat {
    match pc
    case WantCount => 4
    case Count => 3
    case TestCount => 2
    case LeaveCount => 1
    case _ => 0
  }

  function WaitLeft(pc: Pc): nat {
    match pc
    case WantWait => 3
    case Woken => 3
    case Test => 2
    case Leave => 1
    case _ => 0
  }

  /** A bound on the steps still to come: a broadcast gives each thread at most three more. */
  function Work(s: State): nat {
    Bound(Sum(s.pcs, CountLeft), Sum(s.pcs, WaitLeft), |s.pcs|)
  }

  function Bound(counting: nat, waiting: nat, threads: nat): nat {
    counting * (1 + 3 * threads) + waiting
  }

  lemma BoundDrops(counting: nat, waiting: nat, later: nat, threads: nat)
    requires counting > 0 && later <= waiting + 3 * threads
    ensures Bound(counting - 1, later, threads) < Bound(counting, waiting, threads)
  {
    var w := 1 + 3 * threads;
    assert (counting - 1) * w == counting * w - w;
  }

  lemma {:induction false} BroadcastBound(pcs: seq<Pc>)
    ensures Sum(WakeAll(pcs), WaitLeft) <= Sum(pcs, WaitLeft) + 3 * |pcs|
  {
    if pcs != [] {
      var k := |pcs| - 1;
      assert WakeAll(pcs)[..k] == WakeAll(pcs[..k]);
      BroadcastBound(pcs[..k]);
    }
  }

  lemma BroadcastWork(s: State, t: Tid)
    requires Enabled(s, Step(t)) && s.pcs[t] == TestCount && s.latch == 0
    ensures Sum(Next(s, Step(t)).pcs, WaitLeft) <= Sum(s.pcs, WaitLeft) + 3 * |s.pcs|
  {
    assert Next(s, Step(t)).pcs == WakeAll(s.pcs)[t := LeaveCount];
    SumUpdate(WakeAll(s.pcs), WaitLeft, t, LeaveCount);
    BroadcastBound(s.pcs);
  }

  /** The count part and the wait part of the work after a step or a spurious wakeup. */
  lemma WorkParts(s: State, a: Action)
    requires Enabled(s, a)
    ensures var n := Next(s, a);
            && |n.pcs| == |s.pcs|
            && (a.Spurious? ==> Sum(n.pcs, CountLeft) == Sum(s.pcs, CountLeft)
                                && Sum(n.pcs, WaitLeft) == Sum(s.pcs, WaitLeft) + 3)
            && (a.Step? && Waiter(s.pcs[a.t]) ==> Sum(n.pcs, CountLeft) == Sum(s.pcs, CountLeft)
                                                  && Sum(n.pcs, WaitLeft) < Sum(s.pcs, WaitLeft))
            && (a.Step? && !Waiter(s.pcs[a.t]) ==> Sum(n.pcs, CountLeft) == Sum(s.pcs, CountLeft) - 1
                                                   && Sum(n.pcs, WaitLeft) <= Sum(s.pcs, WaitLeft) + 3 * |s.pcs|)
  {
    SumNext(s, a, CountLeft);
    if a.Step? && s.pcs[a.t] == TestCount && s.latch == 0 {
      BroadcastWork(s, a.t);
    } else {
      SumNext(s, a, WaitLeft);
    }
  }

  /** A thread's own step leaves less to do; a spurious wakeup adds one more round of three steps. */
  lemma WorkNext(s: State, a: Action)
    requires Enabled(s, a)
    ensures Work(Next(s, a)) + 1 <= Work(s) + (if a.Spurious? then 4 else 0)
  {
    WorkParts(s, a);
    if a.Step? && !Waiter(s.pcs[a.t]) {
      BoundDrops(Sum(s.pcs, CountLeft), Sum(s.pcs, WaitLeft), Sum(Next(s, a).pcs, WaitLeft), |s.pcs|);
    }
  }

  /** No thread can take a step of its own. */
  ghost predicate Quiet(s: State) {
    forall t: Tid :: !Enabled(s, Step(t))
  }

  lemma QuietIsOver(s: State)
    requires Inv(s) && Quiet(s) && Calls(s) == s.init
    ensures forall t | 0 <= t < |s.pcs| :: Finished(s.pcs[t])
  {
    forall t: Tid | t < |s.pcs|
      ensures s.pcs[t] == Asleep || Finished(s.pcs[t])
    {
      assert !Enabled(s, Step(t));
      assert s.mutex.Some? ==> Holding(s.pcs[s.mutex.value]) && Enabled(s, Step(s.mutex.value));
    }
    CountedAll(s);
  }

  function StepsIn(acts: seq<Action>): nat {
    if acts == [] then 0 else (if acts[0].Step? then 1 else 0) + StepsIn(acts[1..])
  }

  function SpuriousIn(acts: seq<Action>): nat {
    if acts == [] then 0 else (if acts[0].Spurious? then 1 else 0) + SpuriousIn(acts[1..])
  }

  /** Threads cannot step for ever: in any run the steps are bounded by what there was to do at the
      start and three more for each spurious wakeup. */
  lemma {:induction false} StepsBounded(s: State, acts: seq<Action>)
    requires CanRun(s, acts)
    ensures StepsIn(acts) + Work(Run(s, acts)) <= Work(s) + 3 * SpuriousIn(acts)
    decreases |acts|
  {
    if acts != [] {
      WorkNext(s, acts[0]);
      StepsBounded(Next(s, acts[0]), acts[1..]);
    }
  }

  /** With as many CountDown calls as the count, any interleaving brings every wait and every CountDown
      to its end: whatever spurious wakeups occur on the way, a run has boundedly many steps, and when no
      thread can step any more all have returned. */
  lemma EveryoneReturns(s: State, acts: seq<Action>)
    requires Inv(s) && Calls(s) == s.init && CanRun(s, acts)
    ensures StepsIn(acts) <= Work(s) + 3 * SpuriousIn(acts)
    ensures Quiet(Run(s, acts)) ==> forall t | 0 <= t < |Run(s, acts).pcs| :: Finished(Run(s, acts).pcs[t])
  {
    StepsBounded(s, acts);
    RunInv(s, acts);
    if Quiet(Run(s, acts)) {
      QuietIsOver(Run(s, acts));
    }
  }

  ghost predicate Schedules(sched: State -> Tid) {
    forall s: State, t: Tid :: Enabled(s, Step(t)) ==> Enabled(s, Step(sched(s)))
  }

  /** In particular any scheduler of the threads' own steps gets there, from any such state. */
  lemma {:induction false} SchedulerFinishes(s: State, sched: State -> Tid) returns (acts: seq<Action>)
    requires Inv(s) && Calls(s) == s.init && Schedules(sched)
    ensures CanRun(s, acts) && forall a | a in acts :: a.Step?
    ensures forall t | 0 <= t < |Run(s, acts).pcs| :: Finished(Run(s, acts).pcs[t])
    decreases Work(s)
  {
    if Quiet(s) {
      QuietIsOver(s);
      acts := [];
    } else {
      var t: Tid :| Enabled(s, Step(t));
      var a := Step(sched(s));
      WorkNext(s, a);
      NextInv(s, a);
      NextCounts(s, a);
      var rest := SchedulerFinishes(Next(s, a), sched);
      acts := [a] + rest;
      assert acts[1..] == rest;
    }
  }

  // --- One CountDown too many -----------------------------------------------------------------

  lemma ReachableStep(s: State, count: int, pcs: seq<Pc>, a: Action)
    requires Reachable(s, count, pcs) && Enabled(s, a)
    ensures Reachable(Next(s, a), count, pcs)
  {
    var acts: seq<Action> :| CanRun(Init(count, pcs), acts) && s == Run(Init(count, pcs), acts);
    ExtendRun(Init(count, pcs), acts, a);
  }

  lemma {:induction false} ExtendRun(s: State, acts: seq<Action>, a: Action)
    requires CanRun(s, acts) && Enabled(Run(s, acts), a)
    ensures CanRun(s, acts + [a]) && Run(s, acts + [a]) == Next(Run(s, acts), a)
    decreases |acts|
  {
    if acts == [] {
      assert CanRun(Next(s, a), []);
      assert (acts + [a])[1..] == [];
    } else {
      assert (acts + [a])[1..] == acts[1..] + [a];
      ExtendRun(Next(s, acts[0]), acts[1..], a);
    }
  }

  /** Thread t takes the four steps of CountDown, alone. */
  lemma WholeCount(s: State, count: int, pcs: seq<Pc>, t: Tid) returns (r: State)
    requires Reachable(s, count, pcs) && t < |s.pcs| && s.pcs[t] == WantCount && s.mutex == None
    ensures Reachable(r, count, pcs) && r.mutex == None && r.latch == s.latch - 1
    ensures r.pcs == (if s.latch == 1 then WakeAll(s.pcs) else s.pcs)[t := Counted]
  {
    var m := HalfCount(s, count, pcs, t);
    ReachableStep(m, count, pcs, Step(t));
    r := Next(m, Step(t));
    assert r.pcs == (if s.latch == 1 then WakeAll(m.pcs) else m.pcs)[t := LeaveCount];
    ReachableStep(r, count, pcs, Step(t));
    r := Next(r, Step(t));
    assert r.pcs == (if s.latch == 1 then WakeAll(s.pcs) else s.pcs)[t := Counted];
  }

  lemma HalfCount(s: State, count: int, pcs: seq<Pc>, t: Tid) returns (r: State)
    requires Reachable(s, count, pcs) && t < |s.pcs| && s.pcs[t] == WantCount && s.mutex == None
    ensures Reachable(r, count, pcs)
    ensures r == s.(mutex := Some(t), latch := s.latch - 1, pcs := s.pcs[t := TestCount])
  {
    ReachableStep(s, count, pcs, Step(t));
    r := Next(s, Step(t));
    ReachableStep(r, count, pcs, Step(t));
    r := Next(r, Step(t));
    assert r.pcs == s.pcs[t := TestCount];
  }

  /** A waiter that gets the mutex while the latch is not zero goes to sleep. */
  lemma WholeSleep(s: State, count: int, pcs: seq<Pc>, t: Tid) returns (r: State)
    requires Reachable(s, count, pcs) && t < |s.pcs| && s.mutex == None && s.latch != 0
    requires s.pcs[t].WantWait? || s.pcs[t].Woken?
    ensures Reachable(r, count, pcs) && r == s.(pcs := s.pcs[t := Asleep])
  {
    ReachableStep(s, count, pcs, Step(t));
    r := Next(s, Step(t));
    ReachableStep(r, count, pcs, Step(t));
    r := Next(r, Step(t));
    assert r.pcs == s.pcs[t := Asleep];
  }

  /** An extra CountDown between the broadcast and the waiter's return sends the woken waiter back to
      sleep, with no step of any thread left to wake it. */
  lemma ExtraCountStrandsWaiter() returns (s: State)
    ensures Reachable(s, 1, [WantWait, WantCount, WantCount])
    ensures s.pcs == [Asleep, Counted, Counted] && Quiet(s) && s.latch == -1
  {
    var pcs := [WantWait, WantCount, WantCount];
    s := Init(1, pcs);
    assert CanRun(s, []) && Run(s, []) == s;
    s := WholeSleep(s, 1, pcs, 0);
    s := WholeCount(s, 1, pcs, 1);
    assert s.pcs == [Woken, Counted, WantCount];
    s := WholeCount(s, 1, pcs, 2);
    s := WholeSleep(s, 1, pcs, 0);
    assert s.pcs == [Asleep, Counted, Counted];
  }
}

/** The latch as an object: `wait` and `CountDown` in their atomic steps. */
module CountLatchObject {
  import opened Options
  import opened CountLatchModel

  class CountLatch {
    const init: int
    var latch: int
    var mutexOwner: Option<Tid>
    var pcs: seq<Pc>

    function Abs(): State
      reads this
    {
      State(init, latch, mutexOwner, pcs)
    }

    ghost predicate Valid()
      reads this
    {
      Inv(Abs())
    }

    constructor (count: int, threads: seq<Pc>)
      requires Fresh(threads)
      ensures Valid() && Abs() == Init(count, threads)
    {
      init, latch := count, count;
      mutexOwner := None;
      pcs := threads;
      new;
      InitInv(count, threads);
    }

    /** pthread_cond_broadcast: nobody sleeps any more, each of the woken ones has to take the mutex
        again, and nobody else notices. */
    method NotifyAll()
      requires Valid()
      modifies this`pcs
      ensures Valid() && |pcs| == old(|pcs|)
      ensures forall t | 0 <= t < |pcs| :: pcs[t] != Asleep
      ensures forall t: Tid | t < |pcs| && old(pcs[t]) == Asleep :: Enabled(Abs(), Step(t)) <==> mutexOwner == None
      ensures forall t | 0 <= t < |pcs| && old(pcs[t]) != Asleep :: pcs[t] == old(pcs[t])
      ensures Decrements(Abs()) == old(Decrements(Abs())) && Calls(Abs()) == old(Calls(Abs()))
      ensures pcs == WakeAll(old(pcs))
    {
      SumSame(WakeAll(pcs), pcs, Decremented);
      SumSame(WakeAll(pcs), pcs, Counter);
      pcs := WakeAll(pcs);
    }

    method WaitStep(t: Tid)
      requires Valid() && Enabled(Abs(), Step(t)) && Waiter(pcs[t])
      modifies this
      ensures Valid() && Abs() == Next(old(Abs()), Step(t))
    {
      NextInv(Abs(), Step(t));
      match pcs[t] {
        case WantWait =>
          mutexOwner := Some(t);
          pcs := pcs[t := Test];
        case Woken =>
          mutexOwner := Some(t);
          pcs := pcs[t := Test];
        case Test =>
          if latch != 0 {
            mutexOwner := None;
            pcs := pcs[t := Asleep];
          } else {
            pcs := pcs[t := Leave];
          }
        case Leave =>
          mutexOwner := None;
          pcs := pcs[t := Returned];
      }
    }

    method CountDownStep(t: Tid)
      requires Valid() && Enabled(Abs(), Step(t)) && !Waiter(pcs[t])
      modifies this
      ensures Valid() && Abs() == Next(old(Abs()), Step(t))
    {
      NextInv(Abs(), Step(t));
      match pcs[t] {
        case WantCount =>
          mutexOwner := Some(t);
          pcs := pcs[t := Count];
        case Count =>
          latch := latch - 1;
          pcs := pcs[t := TestCount];
        case TestCount =>
          if latch == 0 {
            NotifyAll();
          }
          pcs := pcs[t := LeaveCount];
        case LeaveCount =>
          mutexOwner := None;
          pcs := pcs[t := Counted];
      }
    }

    method SpuriousWakeup(t: Tid)
      requires Valid() && Enabled(Abs(), Spurious(t))
      modifies this
      ensures Valid() && Abs() == Next(old(Abs()), Spurious(t))
    {
      NextInv(Abs(), Spurious(t));
      pcs := pcs[t := Woken];
    }

    /** Any interleaving, from any valid state. */
    method Drive(acts: seq<Action>)
      requires Valid() && CanRun(Abs(), acts)
      modifies this
      ensures Valid() && Abs() == Run(old(Abs()), acts)
    {
      ghost var start := Abs();
      var i := 0;
      while i < |acts|
        invariant 0 <= i <= |acts| && Valid()
        invariant CanRun(Abs(), acts[i..]) && Run(Abs(), acts[i..]) == Run(start, acts)
      {
        assert acts[i..][1..] == acts[i + 1..];
        if acts[i].Spurious? {
          SpuriousWakeup(acts[i].t);
        } else if Waiter(pcs[acts[i].t]) {
          WaitStep(acts[i].t);
        } else {
          CountDownStep(acts[i].t);
        }
        i := i + 1;
      }
    }
  }
}
