/** What pointers, tasks and polls do over a run, counted from its actions. */
module ServerEffects {
  import opened Options
  import opened Sequences
  import opened ServerModel
  import opened ServerInvariant
  import opened ServerSteps
  import opened ServerTheorems
  import Modulo

  // --- Copied pointers ------------------------------------------------------------------------

  function Copies(k: Id, acts: seq<Action>): nat {
    if acts == [] then 0 else (if acts[0] == CopyPointer(k) then 1 else 0) + Copies(k, acts[1..])
  }

  function Drops(k: Id, acts: seq<Action>): nat {
    if acts == [] then 0 else (if acts[0] == DropPointer(k) then 1 else 0) + Drops(k, acts[1..])
  }

  lemma PointersStep(s: Server, a: Action, k: Id)
    requires Enabled(s, a)
    ensures Next(s, a).extra[k] + (if a == DropPointer(k) then 1 else 0)
            == s.extra[k] + (if a == CopyPointer(k) then 1 else 0)
  {
    match a
    case FinishRemoval(l) =>
    case _ =>
  }

  /** The pointers that other code keeps to a connection are those copied and not yet dropped. */
  lemma {:induction false} PointersCount(s: Server, acts: seq<Action>, k: Id)
    requires CanRun(s, acts)
    ensures Run(s, acts).extra[k] + Drops(k, acts) == s.extra[k] + Copies(k, acts)
    ensures s.fdOf <= Run(s, acts).fdOf
    decreases |acts|
  {
    if acts != [] {
      PointersStep(s, acts[0], k);
      NumbersStay(s, acts[0]);
      PointersCount(Next(s, acts[0]), acts[1..], k);
    }
  }

  /** A copied pointer keeps its connection alive: after the copy, and whatever happens to the connection
      meanwhile, as long as there were no more drops than further copies it is not destroyed, its number
      stays open as its own, and no accept can return that number. */
  lemma CopyKeepsAlive(s: Server, k: Id, acts: seq<Action>)
    requires Reachable(s) && Enabled(s, CopyPointer(k)) && CanRun(Next(s, CopyPointer(k)), acts)
    requires Drops(k, acts) <= Copies(k, acts)
    ensures k < |s.fdOf|
    ensures var r, fd := Run(Next(s, CopyPointer(k)), acts), s.fdOf[k];
            && Held(r, k) && k < |r.fdOf| && r.fdOf[k] == fd
            && fd in r.open && r.open[fd] == k && !Enabled(r, Accept(fd))
  {
    var n := Next(s, CopyPointer(k));
    ReachableInv(s);
    HeldLife(s, k);
    NextInv(s, CopyPointer(k));
    PointersStep(s, CopyPointer(k), k);
    PointersCount(n, acts, k);
    RunInv(n, acts);
    KeptIsOpen(Run(n, acts), k);
  }

  lemma KeptIsOpen(s: Server, k: Id)
    requires Inv(s) && k in s.extra
    ensures Held(s, k) && k < |s.fdOf| && s.fdOf[k] in s.open && s.open[s.fdOf[k]] == k
    ensures !Enabled(s, Accept(s.fdOf[k]))
  {
    assert LifeOk(s, k);
  }

  // --- Tasks ----------------------------------------------------------------------------------

  /** The task that an action queues on loop l: the install of a connection handed to it, or a close of
      one of its connections asked for on any other thread. */
  function Adds(l: nat, s: Server, a: Action): seq<Task>
    requires Enabled(s, a)
  {
    match a
    case HandOver => if s.next == l then [Install(s.accepting.value, s.fdOf[s.accepting.value])] else []
    case RequestClose(from, k) => if s.home[k] == l && from != Some(l) then [Close(k, s.fdOf[k])] else []
    case _ => []
  }

  /** The task that an action of loop l takes. */
  function Takes(l: nat, s: Server, a: Action): seq<Task>
    requires Enabled(s, a)
  {
    if a == BeginInstall(l) || a == BeginClose(l) then [s.loops[l].queue[0]] else []
  }

  function AllAdded(l: nat, s: Server, acts: seq<Action>): seq<Task>
    requires CanRun(s, acts)
    decreases |acts|
  {
    if acts == [] then [] else Adds(l, s, acts[0]) + AllAdded(l, Next(s, acts[0]), acts[1..])
  }

  function AllTaken(l: nat, s: Server, acts: seq<Action>): seq<Task>
    requires CanRun(s, acts)
    decreases |acts|
  {
    if acts == [] then [] else Takes(l, s, acts[0]) + AllTaken(l, Next(s, acts[0]), acts[1..])
  }

  /** erase touches one field of its loop, and the log. */
  lemma EraseLoops(s: Server, o: nat)
    requires Enabled(s, FinishRemoval(o))
    ensures var n := Next(s, FinishRemoval(o));
            && |n.loops| == |s.loops|
            && n.loops == s.loops[o := s.loops[o].(removing := None, log := n.loops[o].log)]
  {
  }

  predicate MovesTasks(a: Action) {
    a.HandOver? || a.BeginInstall? || a.BeginClose? || a.RequestClose?
  }

  lemma QueuesStay(s: Server, a: Action)
    requires Enabled(s, a) && !MovesTasks(a)
    ensures |Next(s, a).loops| == |s.loops|
    ensures forall l | 0 <= l < |s.loops| :: Next(s, a).loops[l].queue == s.loops[l].queue
  {
    match a
    case EndInstall(o) => ReleasedLoops(SetPc(s, o, Ready), s.loops[o].pc.id);
    case EndHandle(o) => ReleasedLoops(SetPc(s, o, Ready), s.loops[o].pc.id);
    case DropPointer(k) => ReleasedLoops(s.(extra := s.extra - multiset{k}), k);
    case FinishRemoval(o) => EraseLoops(s, o);
    case _ =>
  }

  lemma HandOverTask(s: Server, l: nat)
    requires Enabled(s, HandOver) && l < |s.loops|
    ensures |Next(s, HandOver).loops| == |s.loops|
    ensures Next(s, HandOver).loops[l].queue == s.loops[l].queue + Adds(l, s, HandOver)
  {
  }

  lemma TakeTask(s: Server, a: Action, l: nat)
    requires Enabled(s, a) && l < |s.loops| && (a.BeginInstall? || a.BeginClose?)
    ensures |Next(s, a).loops| == |s.loops|
    ensures Takes(l, s, a) + Next(s, a).loops[l].queue == s.loops[l].queue
  {
    if a.l == l {
      assert s.loops[l].queue == [s.loops[l].queue[0]] + s.loops[l].queue[1..];
    }
  }

  lemma TaskStep(s: Server, a: Action, l: nat)
    requires Enabled(s, a) && l < |s.loops|
    ensures |Next(s, a).loops| == |s.loops|
    ensures Takes(l, s, a) + Next(s, a).loops[l].queue == s.loops[l].queue + Adds(l, s, a)
  {
    if a.HandOver? {
      HandOverTask(s, l);
    } else if a.RequestClose? {
      CloseTask(s, a.from, a.id, l);
    } else if a.BeginInstall? || a.BeginClose? {
      TakeTask(s, a, l);
    } else {
      QueuesStay(s, a);
    }
  }

  /** A close asked for off the connection's loop goes to the end of that loop's queue and nowhere else;
      one asked for on that loop queues nothing. */
  lemma CloseTask(s: Server, from: Option<nat>, k: Id, l: nat)
    requires Enabled(s, RequestClose(from, k)) && l < |s.loops|
    ensures var n := Next(s, RequestClose(from, k));
            && |n.loops| == |s.loops|
            && n.loops[l].queue == s.loops[l].queue
                                   + if l == s.home[k] && from != Some(s.home[k]) then [Close(k, s.fdOf[k])] else []
  {
  }

  /** No task is lost, duplicated or overtaken: over any run what a loop takes, followed by what it still
      has queued, is what it had followed by what was queued on it. */
  lemma {:induction false} TasksConserved(s: Server, acts: seq<Action>, l: nat)
    requires CanRun(s, acts) && l < |s.loops|
    ensures |Run(s, acts).loops| == |s.loops|
    ensures AllTaken(l, s, acts) + Run(s, acts).loops[l].queue == s.loops[l].queue + AllAdded(l, s, acts)
    decreases |acts|
  {
    if acts != [] {
      var a, n, rest := acts[0], Next(s, acts[0]), acts[1..];
      TaskStep(s, a, l);
      TasksConserved(n, rest, l);
      Rechain(Takes(l, s, a), AllTaken(l, n, rest), Run(n, rest).loops[l].queue,
              n.loops[l].queue, s.loops[l].queue, Adds(l, s, a), AllAdded(l, n, rest));
    }
  }

  lemma Rechain(t: seq<Task>, ts: seq<Task>, end: seq<Task>, mid: seq<Task>, q: seq<Task>, a: seq<Task>, as': seq<Task>)
    requires t + mid == q + a && ts + end == mid + as'
    ensures (t + ts) + end == q + (a + as')
  {
    assert (t + ts) + end == t + (ts + end);
    assert t + (mid + as') == (t + mid) + as';
    assert (q + a) + as' == q + (a + as');
  }

  // --- Dispatching ----------------------------------------------------------------------------

  /** The connection whose handler an action of loop l begins. */
  function Begins(l: nat, s: Server, a: Action): seq<Id>
    requires Enabled(s, a)
  {
    var n := Next(s, a);
    if a == BeginHandle(l) && l < |n.loops| && n.loops[l].pc.Handling? then [n.loops[l].pc.id] else []
  }

  function AllBegun(l: nat, s: Server, acts: seq<Action>): seq<Id>
    requires CanRun(s, acts)
    decreases |acts|
  {
    if acts == [] then [] else Begins(l, s, acts[0]) + AllBegun(l, Next(s, acts[0]), acts[1..])
  }

  predicate NoPoll(l: nat, acts: seq<Action>) {
    forall a | a in acts :: a.Poll? ==> a.l != l
  }

  lemma ActiveStays(s: Server, a: Action)
    requires Enabled(s, a) && !a.Poll? && !a.BeginHandle?
    ensures |Next(s, a).loops| == |s.loops|
    ensures forall l | 0 <= l < |s.loops| :: Next(s, a).loops[l].active == s.loops[l].active
  {
    match a
    case EndInstall(o) => ReleasedLoops(SetPc(s, o, Ready), s.loops[o].pc.id);
    case EndHandle(o) => ReleasedLoops(SetPc(s, o, Ready), s.loops[o].pc.id);
    case DropPointer(k) => ReleasedLoops(s.(extra := s.extra - multiset{k}), k);
    case FinishRemoval(o) => EraseLoops(s, o);
    case _ =>
  }

  lemma ActiveStep(s: Server, a: Action, l: nat)
    requires Enabled(s, a) && l < |s.loops| && (a.Poll? ==> a.l != l)
    ensures |Next(s, a).loops| == |s.loops|
    ensures Begins(l, s, a) + Next(s, a).loops[l].active == s.loops[l].active
  {
    if a.BeginHandle? {
      if a.l == l {
        assert s.loops[l].active == [s.loops[l].active[0]] + s.loops[l].active[1..];
      }
    } else if !a.Poll? {
      ActiveStays(s, a);
    }
  }

  lemma {:induction false} ActiveRun(s: Server, acts: seq<Action>, l: nat)
    requires CanRun(s, acts) && l < |s.loops| && NoPoll(l, acts)
    ensures |Run(s, acts).loops| == |s.loops|
    ensures AllBegun(l, s, acts) + Run(s, acts).loops[l].active == s.loops[l].active
    decreases |acts|
  {
    if acts != [] {
      var n := Next(s, acts[0]);
      ActiveStep(s, acts[0], l);
      ActiveRun(n, acts[1..], l);
      Regroup(Begins(l, s, acts[0]), AllBegun(l, n, acts[1..]), Run(n, acts[1..]).loops[l].active);
    }
  }

  /** Until its next poll a loop begins the handlers of the connections that poll reported, in order and
      each once, and of no others; before it takes a task or polls again it has begun all of them. */
  lemma EveryReadyConnectionIsHandled(s: Server, l: nat, ready: seq<Id>, acts: seq<Action>)
    requires Enabled(s, Poll(l, ready)) && CanRun(Next(s, Poll(l, ready)), acts) && NoPoll(l, acts)
    ensures var n := Next(s, Poll(l, ready));
            && AllBegun(l, n, acts) <= ready
            && (Idle(Run(n, acts), l) ==> AllBegun(l, n, acts) == ready)
  {
    ActiveRun(Next(s, Poll(l, ready)), acts, l);
  }

  // --- Every connection is installed ----------------------------------------------------------

  /** A step that loop l takes by itself: neither a poll nor a close that user code asks for. */
  predicate Own(l: nat, a: Action) {
    a == BeginInstall(l) || a == Activate(l) || a == Insert(l) || a == EndInstall(l)
    || a == BeginHandle(l) || a == EndHandle(l) || a == BeginClose(l) || a == FinishRemoval(l)
  }

  function OwnIn(l: nat, acts: seq<Action>): nat {
    if acts == [] then 0 else (if Own(l, acts[0]) then 1 else 0) + OwnIn(l, acts[1..])
  }

  function PcLeft(pc: LoopPc): nat {
    match pc
    case Ready => 0
    case Handling(_) => 1
    case Inserted(_) => 1
    case Activated(_) => 2
    case Constructed(_) => 3
  }

  /** A bound on the steps loop l has left. */
  function WorkLeft(loop: LoopState): nat {
    5 * |loop.queue| + 2 * |loop.active| + PcLeft(loop.pc) + if loop.removing.Some? then 1 else 0
  }

  /** What an action gives loop l to do. */
  function Gives(l: nat, s: Server, a: Action): nat
    requires Enabled(s, a)
  {
    5 * |Adds(l, s, a)|
    + (if a.Poll? && a.l == l then 2 * |a.ready| else 0)
    + (if a.RequestClose? && a.from == Some(l) then 1 else 0)
  }

  function AllGiven(l: nat, s: Server, acts: seq<Action>): nat
    requires CanRun(s, acts)
    decreases |acts|
  {
    if acts == [] then 0 else Gives(l, s, acts[0]) + AllGiven(l, Next(s, acts[0]), acts[1..])
  }

  lemma OwnStep(s: Server, a: Action, l: nat)
    requires Enabled(s, a) && l < |s.loops| && Own(l, a)
    ensures |Next(s, a).loops| == |s.loops|
    ensures Next(s, a).crashed || WorkLeft(Next(s, a).loops[l]) < WorkLeft(s.loops[l])
    ensures WorkLeft(Next(s, a).loops[l]) <= WorkLeft(s.loops[l])
  {
    match a
    case EndInstall(o) => ReleasedLoops(SetPc(s, o, Ready), s.loops[o].pc.id);
    case EndHandle(o) => ReleasedLoops(SetPc(s, o, Ready), s.loops[o].pc.id);
    case FinishRemoval(o) => EraseLoops(s, o);
    case BeginClose(o) => CloseWork(s, o);
    case _ =>
  }

  lemma CloseWork(s: Server, l: nat)
    requires Enabled(s, BeginClose(l))
    ensures |Next(s, BeginClose(l)).loops| == |s.loops|
    ensures WorkLeft(Next(s, BeginClose(l)).loops[l]) < WorkLeft(s.loops[l])
  {
  }

  lemma OtherStep(s: Server, a: Action, l: nat)
    requires Inv(s) && Enabled(s, a) && l < |s.loops| && !Own(l, a)
    ensures |Next(s, a).loops| == |s.loops|
    ensures WorkLeft(Next(s, a).loops[l]) <= WorkLeft(s.loops[l]) + Gives(l, s, a)
  {
    TaskStep(s, a, l);
    if Performer(a) == Some(l) {
      OwnRequest(s, a, l);
    } else {
      OthersKeepShard(s, a, l);
    }
  }

  lemma OwnRequest(s: Server, a: Action, l: nat)
    requires Enabled(s, a) && l < |s.loops| && Performer(a) == Some(l) && !Own(l, a)
    ensures |Next(s, a).loops| == |s.loops|
    ensures WorkLeft(Next(s, a).loops[l]) <= WorkLeft(s.loops[l]) + Gives(l, s, a)
  {
  }

  /** A loop cannot go on for ever by itself: in any run its own steps are bounded by what it had to do
      at the start and what polls, closes and hand-overs gave it on the way. */
  lemma {:induction false} OwnStepsBounded(s: Server, acts: seq<Action>, l: nat)
    requires Inv(s) && CanRun(s, acts) && l < |s.loops|
    ensures |Run(s, acts).loops| == |s.loops|
    ensures OwnIn(l, acts) + WorkLeft(Run(s, acts).loops[l])
            <= WorkLeft(s.loops[l]) + AllGiven(l, s, acts) + if Run(s, acts).crashed then 1 else 0
    decreases |acts|
  {
    if acts != [] {
      var n := Next(s, acts[0]);
      NextInv(s, acts[0]);
      if Own(l, acts[0]) {
        OwnStep(s, acts[0], l);
      } else {
        OtherStep(s, acts[0], l);
      }
      OwnStepsBounded(n, acts[1..], l);
      assert n.crashed ==> acts[1..] == [];
    }
  }

  /** Loop l has nothing it can do by itself. */
  ghost predicate Resting(s: Server, l: nat) {
    forall a: Action :: Own(l, a) ==> !Enabled(s, a)
  }

  lemma RestingIsDrained(s: Server, l: nat)
    requires Inv(s) && !s.crashed && l < |s.loops| && Resting(s, l)
    ensures Idle(s, l) && s.loops[l].queue == []
  {
    if !Idle(s, l) {
      assert LoopOk(s, l);
      var a := BusyGoesOn(s, l);
    } else if s.loops[l].queue != [] {
      assert LoopOk(s, l) && TaskOk(s, l, 0);
      var a := TaskGoesOn(s, l);
    }
  }

  lemma BusyGoesOn(s: Server, l: nat) returns (a: Action)
    requires Sizes(s) && !s.crashed && l < |s.loops| && PcOk(s, l) && !Idle(s, l)
    ensures Own(l, a) && Enabled(s, a)
  {
    if s.loops[l].removing.Some? {
      a := FinishRemoval(l);
    } else {
      match s.loops[l].pc
      case Ready => a := BeginHandle(l);
      case Constructed(_) => a := Activate(l);
      case Activated(_) => a := Insert(l);
      case Inserted(_) => a := EndInstall(l);
      case Handling(_) => a := EndHandle(l);
    }
  }

  lemma TaskGoesOn(s: Server, l: nat) returns (a: Action)
    requires Sizes(s) && !s.crashed && Idle(s, l) && s.loops[l].queue != [] && TaskOk(s, l, 0)
    ensures Own(l, a) && Enabled(s, a)
  {
    a := if s.loops[l].queue[0].Install? then BeginInstall(l) else BeginClose(l);
  }

  /** Every connection is installed: from any reachable state a loop comes to rest after boundedly many
      steps of its own, and when it rests it has installed, in accept order, every connection handed to
      it so far. */
  lemma EveryConnectionIsInstalled(s: Server, acts: seq<Action>, l: nat)
    requires Reachable(s) && CanRun(s, acts) && l < |s.loops|
    ensures |Run(s, acts).loops| == |s.loops|
    ensures OwnIn(l, acts) <= WorkLeft(s.loops[l]) + AllGiven(l, s, acts) + 1
    ensures var r := Run(s, acts);
            !r.crashed && Resting(r, l) ==>
              r.loops[l].queue == [] && InstallsOf(r.loops[l].log) == Assigned(l, |r.loops|, |r.home|)
  {
    ReachableInv(s);
    OwnStepsBounded(s, acts, l);
    RunInv(s, acts);
    var r := Run(s, acts);
    if !r.crashed && Resting(r, l) {
      RestingIsDrained(r, l);
      RestingInstalls(r, l);
    }
  }

  lemma RestingInstalls(s: Server, l: nat)
    requires Inv(s) && l < |s.loops| && Idle(s, l) && s.loops[l].queue == []
    ensures InstallsOf(s.loops[l].log) == Assigned(l, |s.loops|, |s.home|)
  {
    assert LoopOk(s, l);
    assert InstallsOf(s.loops[l].log) + [] + [] == InstallsOf(s.loops[l].log);
  }

  // --- What the model leaves open -------------------------------------------------------------

  /** A shared pointer to connection k is at hand: somewhere else, in its table, or in its handler or
      its install. */
  predicate AtHand(s: Server, k: Id) {
    k < |s.home| && s.home[k] < |s.loops|
    && (k in s.extra || InTable(s, s.home[k], k) || IsLocal(s, s.home[k], k)
        || s.loops[s.home[k]].pc == Handling(k))
  }

  /** Whoever has a shared pointer may copy it, and may close the connection: any thread, and any user
      code on any loop's thread, be it a functor, a timer, a handler or a new-connection callback. */
  lemma AnyHolderMayCopyAndClose(s: Server, k: Id, l: nat)
    requires Inv(s) && !s.crashed && AtHand(s, k)
    ensures Enabled(s, CopyPointer(k)) && Enabled(s, RequestClose(None, k))
    ensures l < |s.loops| && s.loops[l].removing == None
            && (s.loops[l].pc.Handling? || s.loops[l].pc.Constructed?
                || (s.loops[l].pc == Ready && s.loops[l].active == []))
            ==> Enabled(s, RequestClose(Some(l), k))
  {
    assert k in s.extra || HeldOn(s, s.home[k], k);
  }

  /** Accept may return any number that is not open, however often it was used before, and what was
      accepted can be handed over; a poll may report any of its loop's registered connections. */
  lemma AnyNumberMayBeAccepted(s: Server, fd: Fd)
    requires Inv(s) && !s.crashed
    ensures s.accepting == None ==> (Enabled(s, Accept(fd)) <==> fd !in s.open)
    ensures s.accepting.Some? ==> Enabled(s, HandOver)
  {
    Modulo.Bound(|s.home|, |s.loops|);
  }

  lemma AnyRegisteredMayBeReady(s: Server, l: nat, ready: seq<Id>)
    requires Inv(s) && !s.crashed && Idle(s, l) && NoDup(ready)
    requires forall k | k in ready :: InTable(s, l, k)
    ensures Enabled(s, Poll(l, ready))
  {
    assert LoopOk(s, l);
  }
}
