/** What calls and polls do, counted from the actions of a run alone. */
module EventLoopEffects {
  import opened Options
  import opened Sequences
  import opened EventLoopModel
  import opened EventLoopInvariant
  import opened EventLoopTheorems

  // --- What a thread's calls hand over --------------------------------------------------------

  function Tags(fs: seq<Functor>): seq<nat> {
    seq(|fs|, i requires 0 <= i < |fs| => fs[i].tag)
  }

  /** The functor that an action of thread t hands over: runInLoop does so off the loop thread only. */
  function HandOver(t: Tid, a: Action): seq<nat> {
    match a
    case Queue(u, tag) => if u == t then [tag] else []
    case RunIn(u, tag) => if u == t && t != LOOP then [tag] else []
    case _ => []
  }

  function HandOvers(t: Tid, acts: seq<Action>): seq<nat> {
    if acts == [] then [] else HandOver(t, acts[0]) + HandOvers(t, acts[1..])
  }

  lemma AskedStep(s: State, a: Action, t: Tid)
    requires Enabled(s, a) && t < |s.callers| == |s.hist.asked|
    ensures var n := Next(s, a);
            && |n.callers| == |s.callers| == |n.hist.asked|
            && Tags(n.hist.asked[t]) == Tags(s.hist.asked[t]) + HandOver(t, a)
  {
    match a
    case Queue(u, tag) => assert CanCall(s, u);
    case RunIn(u, tag) =>
    case Quit(_) =>
    case Step(u) => OneCaller(s, u);
    case Poll(_) =>
    case LoopStep =>
  }

  lemma {:induction false} AskedRun(s: State, acts: seq<Action>, t: Tid)
    requires CanRun(s, acts) && t < |s.callers| == |s.hist.asked|
    ensures var r := Run(s, acts);
            && |r.callers| == |s.callers| == |r.hist.asked|
            && Tags(r.hist.asked[t]) == Tags(s.hist.asked[t]) + HandOvers(t, acts)
    decreases |acts|
  {
    if acts != [] {
      var n := Next(s, acts[0]);
      AskedStep(s, acts[0], t);
      AskedRun(n, acts[1..], t);
      Regroup(Tags(s.hist.asked[t]), HandOver(t, acts[0]), HandOvers(t, acts[1..]));
    }
  }

  /** Whatever other threads do, the functors of a thread's queueInLoop calls, and of its runInLoop calls
      off the loop thread, are, in the order of the calls, exactly what is pushed for it; the one of a
      call still under way may be missing. */
  lemma CallsArePushed(s: State, acts: seq<Action>, t: Tid)
    requires Inv(s) && CanRun(s, acts) && t < |s.callers| && s.callers[t] == Idle
    ensures var r := Run(s, acts);
            && t < |r.callers|
            && Tags(By(t, r.hist.queued)) + Tags(NotYetPushed(r.callers[t]))
               == Tags(By(t, s.hist.queued)) + HandOvers(t, acts)
            && (r.callers[t] == Idle ==>
                  Tags(By(t, r.hist.queued)) == Tags(By(t, s.hist.queued)) + HandOvers(t, acts))
  {
    AskedRun(s, acts, t);
    RunInv(s, acts);
    var r := Run(s, acts);
    assert OrderOf(s, t) && OrderOf(r, t);
    assert s.hist.asked[t] == By(t, s.hist.queued);
    TagsConcat(By(t, r.hist.queued), NotYetPushed(r.callers[t]));
  }

  lemma TagsConcat(a: seq<Functor>, b: seq<Functor>)
    ensures Tags(a + b) == Tags(a) + Tags(b)
  {
  }

  // --- What runs ------------------------------------------------------------------------------

  /** What an action runs: runInLoop on the loop thread its functor, a batch its next one. */
  function Runs(s: State, a: Action): seq<nat>
    requires Enabled(s, a)
  {
    match a
    case RunIn(t, tag) => if t == LOOP then [tag] else []
    case LoopStep => if s.pc == RunBatch && s.batch != [] then [s.batch[0].tag] else []
    case _ => []
  }

  function AllRuns(s: State, acts: seq<Action>): seq<nat>
    requires CanRun(s, acts)
    decreases |acts|
  {
    if acts == [] then [] else Runs(s, acts[0]) + AllRuns(Next(s, acts[0]), acts[1..])
  }

  /** How many runInLoop calls the loop thread makes. */
  function RunInsOnLoop(acts: seq<Action>): nat {
    if acts == [] then 0 else (if acts[0].RunIn? && acts[0].t == LOOP then 1 else 0) + RunInsOnLoop(acts[1..])
  }

  function RanTags(ran: seq<(Functor, Tid)>): seq<nat> {
    seq(|ran|, i requires 0 <= i < |ran| => ran[i].0.tag)
  }

  lemma RunsStep(s: State, a: Action)
    requires Enabled(s, a)
    ensures RanTags(Next(s, a).hist.ran) == RanTags(s.hist.ran) + Runs(s, a)
    ensures |Next(s, a).hist.ran| - |Next(s, a).hist.executed|
            == |s.hist.ran| - |s.hist.executed| + RunInsOnLoop([a])
  {
    if a.Step? {
      RanStays(s, a.t);
    }
  }

  lemma RanStays(s: State, t: Tid)
    requires Enabled(s, Step(t))
    ensures CallStep(s, t).hist.ran == s.hist.ran && CallStep(s, t).hist.executed == s.hist.executed
  {
  }

  /** Each runInLoop on the loop thread runs its functor once and at once; apart from these, exactly the
      functors taken from batches run. */
  lemma {:induction false} EveryRunIsAsked(s: State, acts: seq<Action>)
    requires CanRun(s, acts)
    ensures var r := Run(s, acts);
            && RanTags(r.hist.ran) == RanTags(s.hist.ran) + AllRuns(s, acts)
            && |r.hist.ran| - |r.hist.executed| == |s.hist.ran| - |s.hist.executed| + RunInsOnLoop(acts)
    decreases |acts|
  {
    if acts != [] {
      RunsStep(s, acts[0]);
      EveryRunIsAsked(Next(s, acts[0]), acts[1..]);
      assert [acts[0]][1..] == [];
    }
  }

  // --- Walking ActivityChannel ----------------------------------------------------------------

  function IoOf(ready: seq<Channel>): seq<Channel> {
    if ready == [] then [] else (if ready[0].IoChannel? then [ready[0]] else []) + IoOf(ready[1..])
  }

  predicate Walking(pc: LoopPc) {
    pc.Dispatch? || pc.InHandler?
  }

  /** A run during which the loop does not leave the walk over ActivityChannel before the end. */
  predicate Walks(s: State, acts: seq<Action>)
    decreases |acts|
  {
    acts == [] || (Walking(s.pc) && Enabled(s, acts[0]) && Walks(Next(s, acts[0]), acts[1..]))
  }

  /** The user handlers that are entered, in order. */
  function Entered(s: State, acts: seq<Action>): seq<Channel>
    requires Walks(s, acts)
    decreases |acts|
  {
    if acts == [] then []
    else
      var n := Next(s, acts[0]);
      (if s.pc.Dispatch? && n.pc.InHandler? then [n.pc.now] else []) + Entered(n, acts[1..])
  }

  function StillToWalk(pc: LoopPc): seq<Channel> {
    if Walking(pc) then pc.todo else []
  }

  lemma WalkStep(s: State, a: Action)
    requires Enabled(s, a) && Walking(s.pc)
    ensures var n := Next(s, a);
            && (Walking(n.pc) || (n.pc == WantSwap && StillToWalk(s.pc) == []))
            && (if s.pc.Dispatch? && n.pc.InHandler? then [n.pc.now] else []) + IoOf(StillToWalk(n.pc))
               == IoOf(StillToWalk(s.pc))
  {
    if a.Step? {
      OneCaller(s, a.t);
    }
  }

  lemma {:induction false} WalkRun(s: State, acts: seq<Action>)
    requires Walks(s, acts) && (Walking(s.pc) || s.pc == WantSwap)
    ensures CanRun(s, acts)
    ensures Walking(Run(s, acts).pc) || Run(s, acts).pc == WantSwap
    ensures Entered(s, acts) + IoOf(StillToWalk(Run(s, acts).pc)) == IoOf(StillToWalk(s.pc))
    decreases |acts|
  {
    if acts != [] {
      WalkStep(s, acts[0]);
      WalkRun(Next(s, acts[0]), acts[1..]);
    }
  }

  /** Whatever calls are made meanwhile, the loop enters the handlers of the I/O channels that poll
      reported, in order and each once, and by the time it goes on to the functors it has entered all. */
  lemma EveryReadyChannelIsHandled(s: State, ready: seq<Channel>, acts: seq<Action>)
    requires Enabled(s, Poll(ready)) && Walks(Next(s, Poll(ready)), acts)
    ensures CanRun(Next(s, Poll(ready)), acts)
    ensures var n := Next(s, Poll(ready));
            && Entered(n, acts) <= IoOf(ready)
            && (Run(n, acts).pc == WantSwap ==> Entered(n, acts) == IoOf(ready))
  {
    WalkRun(Next(s, Poll(ready)), acts);
  }

  // --- The eventfd ----------------------------------------------------------------------------

  predicate Writes(s: State, a: Action) {
    a.Step? && a.t < |s.callers| && s.callers[a.t].Wake?
  }

  /** The wakeup channel's turn in the walk. */
  predicate WakeupTurn(s: State, a: Action) {
    a == LoopStep && s.pc.Dispatch? && s.pc.todo != [] && s.pc.todo[0] == WakeupChannel
  }

  function WritesIn(s: State, acts: seq<Action>): nat
    requires CanRun(s, acts)
    decreases |acts|
  {
    if acts == [] then 0 else (if Writes(s, acts[0]) then 1 else 0) + WritesIn(Next(s, acts[0]), acts[1..])
  }

  function WakeupTurnsIn(s: State, acts: seq<Action>): nat
    requires CanRun(s, acts)
    decreases |acts|
  {
    if acts == [] then 0 else (if WakeupTurn(s, acts[0]) then 1 else 0) + WakeupTurnsIn(Next(s, acts[0]), acts[1..])
  }

  /** How many polls report the wakeup channel. */
  function WokenPolls(acts: seq<Action>): nat {
    if acts == [] then 0
    else (if acts[0].Poll? && WakeupChannel in acts[0].ready then 1 else 0) + WokenPolls(acts[1..])
  }

  function Least(a: nat, b: nat): nat {
    if a < b then a else b
  }

  lemma CounterStep(s: State, a: Action)
    requires Enabled(s, a)
    ensures WakeupTurn(s, a) ==> Next(s, a).wakeups == 0
    ensures Writes(s, a) ==> Next(s, a).wakeups == if s.wakeups < EVENTFD_MAX then s.wakeups + 1 else s.wakeups
    ensures !Writes(s, a) && !WakeupTurn(s, a) ==> Next(s, a).wakeups == s.wakeups
  {
  }

  /** Between two turns of the wakeup channel the counter counts the writes, up to its maximum. */
  lemma {:induction false} CounterCountsWrites(s: State, acts: seq<Action>)
    requires CanRun(s, acts) && s.wakeups <= EVENTFD_MAX && WakeupTurnsIn(s, acts) == 0
    ensures Run(s, acts).wakeups == Least(s.wakeups + WritesIn(s, acts), EVENTFD_MAX)
    decreases |acts|
  {
    if acts != [] {
      CounterStep(s, acts[0]);
      CounterCountsWrites(Next(s, acts[0]), acts[1..]);
    }
  }

  /** The wakeup channel's turn drains the eventfd: it stays unreadable until the next write. */
  lemma DrainedUntilWritten(s: State, acts: seq<Action>)
    requires WakeupTurn(s, LoopStep) && Enabled(s, LoopStep) && CanRun(Next(s, LoopStep), acts)
    requires WritesIn(Next(s, LoopStep), acts) == 0
    ensures Run(Next(s, LoopStep), acts).wakeups == 0
  {
    CounterStep(s, LoopStep);
    StaysDrained(Next(s, LoopStep), acts);
  }

  lemma {:induction false} StaysDrained(s: State, acts: seq<Action>)
    requires CanRun(s, acts) && s.wakeups == 0 && WritesIn(s, acts) == 0
    ensures Run(s, acts).wakeups == 0
    decreases |acts|
  {
    if acts != [] {
      CounterStep(s, acts[0]);
      StaysDrained(Next(s, acts[0]), acts[1..]);
    }
  }

  /** One if a write has been made that no poll has reported yet. */
  function Unreported(s: State): nat {
    if s.wakeups > 0 && WakeupChannel !in StillToWalk(s.pc) then 1 else 0
  }

  lemma UnreportedStep(s: State, a: Action)
    requires Enabled(s, a)
    ensures WokenPolls([a]) + Unreported(Next(s, a)) <= Unreported(s) + if Writes(s, a) then 1 else 0
  {
    CounterStep(s, a);
    assert [a][1..] == [];
    if a.Step? {
      OneCaller(s, a.t);
    }
  }

  /** No spinning: in any run the polls that the eventfd ends are at most the writes to it, and one for
      a write that was waiting at the start. */
  lemma {:induction false} WokenByWrites(s: State, acts: seq<Action>)
    requires CanRun(s, acts)
    ensures WokenPolls(acts) + Unreported(Run(s, acts)) <= Unreported(s) + WritesIn(s, acts)
    decreases |acts|
  {
    if acts != [] {
      UnreportedStep(s, acts[0]);
      assert [acts[0]][1..] == [];
      WokenByWrites(Next(s, acts[0]), acts[1..]);
    }
  }

  // --- Which calls write ----------------------------------------------------------------------

  function WritesBy(t: Tid, s: State, acts: seq<Action>): nat
    requires CanRun(s, acts)
    decreases |acts|
  {
    if acts == [] then 0
    else (if Writes(s, acts[0]) && acts[0].t == t then 1 else 0) + WritesBy(t, Next(s, acts[0]), acts[1..])
  }

  /** Whether a call of thread t has to write: any call of another thread that queues or quits, and of the
      loop thread's own only a queueInLoop from within a batch. */
  predicate MustWrite(t: Tid, s: State, a: Action) {
    match a
    case Queue(u, _) => u == t && (t != LOOP || s.pc == InFunctor)
    case RunIn(u, _) => u == t && t != LOOP
    case Quit(u) => u == t && t != LOOP
    case _ => false
  }

  function MustWriteIn(t: Tid, s: State, acts: seq<Action>): nat
    requires CanRun(s, acts)
    decreases |acts|
  {
    if acts == [] then 0 else (if MustWrite(t, s, acts[0]) then 1 else 0) + MustWriteIn(t, Next(s, acts[0]), acts[1..])
  }

  /** The write that the call thread t is in still owes. */
  function Owed(s: State, t: Tid): nat
    requires t < |s.callers|
  {
    match s.callers[t]
    case Idle => 0
    case Wake(_) => 1
    case QuitDecide => if t != LOOP then 1 else 0
    case _ => if t != LOOP || s.calling then 1 else 0
  }

  lemma OwedStep(s: State, a: Action, t: Tid)
    requires Inv(s) && Enabled(s, a) && t < |s.callers|
    ensures t < |Next(s, a).callers|
    ensures (if Writes(s, a) && a.t == t then 1 else 0) + Owed(Next(s, a), t)
            == Owed(s, t) + (if MustWrite(t, s, a) then 1 else 0)
  {
    match a
    case Queue(_, _) => OwedCall(s, a, t);
    case RunIn(_, _) => OwedCall(s, a, t);
    case Quit(_) => OwedCall(s, a, t);
    case Step(u) => OwedCallStep(s, u, t);
    case Poll(_) =>
    case LoopStep => OwedLoop(s, t);
  }

  lemma OwedCall(s: State, a: Action, t: Tid)
    requires Locking(s) && Flags(s) && Enabled(s, a) && t < |s.callers| && (a.Queue? || a.RunIn? || a.Quit?)
    ensures t < |Next(s, a).callers|
    ensures Owed(Next(s, a), t) == Owed(s, t) + (if MustWrite(t, s, a) then 1 else 0)
  {
  }

  lemma OwedCallStep(s: State, u: Tid, t: Tid)
    requires Enabled(s, Step(u)) && t < |s.callers|
    ensures t < |CallStep(s, u).callers|
    ensures (if s.callers[u].Wake? && u == t then 1 else 0) + Owed(CallStep(s, u), t) == Owed(s, t)
  {
    OneCaller(s, u);
  }

  lemma OwedLoop(s: State, t: Tid)
    requires Enabled(s, LoopStep) && t < |s.callers|
    ensures t < |LoopNext(s).callers| && Owed(LoopNext(s), t) == Owed(s, t)
  {
    assert LoopNext(s).callers == s.callers;
  }

  lemma {:induction false} OwedRun(s: State, acts: seq<Action>, t: Tid)
    requires Inv(s) && CanRun(s, acts) && t < |s.callers|
    ensures t < |Run(s, acts).callers|
    ensures WritesBy(t, s, acts) + Owed(Run(s, acts), t) == Owed(s, t) + MustWriteIn(t, s, acts)
    decreases |acts|
  {
    if acts != [] {
      OwedStep(s, acts[0], t);
      NextInv(s, acts[0]);
      OwedRun(Next(s, acts[0]), acts[1..], t);
    }
  }

  /** The wakeup decision is exact: over any run in which thread t begins and ends outside a call, it has
      written the eventfd once for each call that has to, and for no other. */
  lemma WritesExactlyWhenDue(s: State, acts: seq<Action>, t: Tid)
    requires Inv(s) && CanRun(s, acts) && t < |s.callers| && s.callers[t] == Idle
    requires t < |Run(s, acts).callers| && Run(s, acts).callers[t] == Idle
    ensures WritesBy(t, s, acts) == MustWriteIn(t, s, acts)
  {
    OwedRun(s, acts, t);
  }

  // --- What the model leaves open -------------------------------------------------------------

  /** Any thread outside a call may start one at any moment, whatever the others do; the loop thread from
      handlers, functors, timers, and before and after loop(). */
  lemma AnyoneMayCall(s: State, t: Tid, tag: nat)
    requires Inv(s) && t < |s.callers| && s.callers[t] == Idle
    requires t != LOOP || s.pc == Outside || s.pc.InHandler? || s.pc == InFunctor || s.pc == Timers || s.pc == Done
    ensures Enabled(s, Queue(t, tag)) && Enabled(s, RunIn(t, tag)) && Enabled(s, Quit(t))
  {
  }

  function IoChannels(fds: seq<nat>): seq<Channel> {
    seq(|fds|, i requires 0 <= i < |fds| => IoChannel(fds[i]))
  }

  lemma {:induction false} IoOfAll(fds: seq<nat>, more: seq<Channel>)
    ensures IoOf(IoChannels(fds) + more) == IoChannels(fds) + IoOf(more)
  {
    if fds == [] {
      assert IoChannels(fds) + more == more;
      assert IoChannels(fds) + IoOf(more) == IoOf(more);
    } else {
      var all := IoChannels(fds) + more;
      assert all[0] == IoChannel(fds[0]) && all[1..] == IoChannels(fds[1..]) + more;
      assert IoChannels(fds) == [IoChannel(fds[0])] + IoChannels(fds[1..]);
      IoOfAll(fds[1..], more);
    }
  }

  /** poll may report any I/O events, in any order and number; it reports the wakeup channel with them if
      and only if the eventfd is readable; and it may return with nothing if and only if it times out. */
  lemma PollReportsAnything(s: State, fds: seq<nat>)
    requires s.pc == AtPoll
    ensures fds != [] || s.wakeups > 0 || s.timed <==>
            exists ready :: Enabled(s, Poll(ready)) && IoOf(ready) == IoChannels(fds)
    ensures forall ready | Enabled(s, Poll(ready)) :: WakeupChannel in ready <==> s.wakeups > 0
  {
    var more := if s.wakeups > 0 then [WakeupChannel] else [];
    var ready := IoChannels(fds) + more;
    IoOfAll(fds, more);
    assert IoOf(more) == [];
    assert IoOf(ready) == IoChannels(fds);
    assert s.wakeups > 0 ==> ready[|fds|] == WakeupChannel;
    if fds != [] || s.wakeups > 0 || s.timed {
      assert fds != [] ==> ready[0] == IoChannel(fds[0]);
      assert Enabled(s, Poll(ready));
    }
  }
}
