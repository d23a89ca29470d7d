/** Runs in which a close or a dispatch goes wrong, on a server with one loop. */
module ServerWitness {
  import opened Options
  import opened ServerModel
  import opened ServerInvariant
  import opened ServerSteps
  import opened ServerTheorems

  /** One loop, with nothing to do and nothing under way. */
  ghost predicate AtRest(s: Server) {
    && Reachable(s) && !s.crashed && s.accepting == None
    && |s.loops| == 1 && Idle(s, 0) && s.loops[0].queue == []
  }

  function WithLoop(s: Server, loop: LoopState): Server {
    s.(loops := [loop])
  }

  /** The server with one more connection, numbered fd, at some point of its life. */
  function WithConnection(s: Server, fd: Fd, life: Life): Server {
    s.(open := s.open[fd := |s.fdOf|], fdOf := s.fdOf + [fd], home := s.home + [0], life := s.life + [life])
  }

  lemma OneLoop(s: Server, loop: LoopState)
    requires |s.loops| == 1 && s.loops[0] == loop
    ensures s.loops == [loop]
  {
  }

  lemma Accepting(s: Server, fd: Fd) returns (r: Server)
    requires AtRest(s) && fd !in s.open
    ensures Reachable(r) && Enabled(r, HandOver) && s.next == 0 && |s.home| == |s.fdOf| == |s.life|
    ensures r == s.(accepting := Some(|s.fdOf|), open := s.open[fd := |s.fdOf|], fdOf := s.fdOf + [fd],
                    life := s.life + [Accepted])
  {
    ReachableInv(s);
    ReachableStep(s, Accept(fd));
    r := Next(s, Accept(fd));
  }

  lemma HandedOver(s: Server, fd: Fd) returns (r: Server)
    requires AtRest(s) && fd !in s.open
    ensures Reachable(r)
    ensures r == WithLoop(WithConnection(s, fd, Queued), s.loops[0].(queue := [Install(|s.fdOf|, fd)]))
    ensures |s.home| == |s.fdOf| == |s.life|
  {
    var m := Accepting(s, fd);
    ReachableStep(m, HandOver);
    r := Next(m, HandOver);
    OneLoop(r, s.loops[0].(queue := [Install(|s.fdOf|, fd)]));
  }

  lemma Constructing(s: Server, fd: Fd) returns (r: Server)
    requires AtRest(s) && fd !in s.open
    ensures Reachable(r)
    ensures r == WithLoop(WithConnection(s, fd, Building), s.loops[0].(pc := Constructed(|s.fdOf|)))
    ensures |s.home| == |s.fdOf| == |s.life|
  {
    var m := HandedOver(s, fd);
    ReachableStep(m, BeginInstall(0));
    r := Next(m, BeginInstall(0));
    OneLoop(r, s.loops[0].(pc := Constructed(|s.fdOf|)));
  }

  lemma Activating(s: Server, fd: Fd) returns (r: Server)
    requires AtRest(s) && fd !in s.open
    ensures Reachable(r)
    ensures var k := |s.fdOf|;
            r == WithLoop(WithConnection(s, fd, Building),
                          s.loops[0].(pc := Activated(k), reg := s.loops[0].reg[fd := k]))
    ensures |s.home| == |s.fdOf| == |s.life|
  {
    var m := Constructing(s, fd);
    var k := |s.fdOf|;
    ReachableStep(m, Activate(0));
    r := Next(m, Activate(0));
    OneLoop(r, s.loops[0].(pc := Activated(k), reg := s.loops[0].reg[fd := k]));
  }

  /** The loop after it has installed connection k. */
  function InstalledLoop(loop: LoopState, k: Id, fd: Fd): LoopState {
    loop.(reg := loop.reg[fd := k], log := loop.log + [Ins(k, fd)])
  }

  function Installed(s: Server, fd: Fd): Server
    requires |s.loops| == 1
  {
    var k := |s.fdOf|;
    WithLoop(WithConnection(s, fd, Mapped), InstalledLoop(s.loops[0], k, fd))
      .(connectionMap := s.connectionMap[0 := Table(s, 0)[fd := k]])
  }

  lemma Inserting(s: Server, fd: Fd) returns (r: Server)
    requires AtRest(s) && fd !in s.open
    ensures Reachable(r)
    ensures r == WithLoop(Installed(s, fd), InstalledLoop(s.loops[0], |s.fdOf|, fd).(pc := Inserted(|s.fdOf|)))
    ensures |s.home| == |s.fdOf| == |s.life|
  {
    var m := Activating(s, fd);
    InsertFindsAbsent(m, 0);
    ReachableStep(m, Insert(0));
    r := Next(m, Insert(0));
    OneLoop(r, InstalledLoop(s.loops[0], |s.fdOf|, fd).(pc := Inserted(|s.fdOf|)));
  }

  /** One more connection is accepted, handed over and installed, with nothing else going on. */
  lemma InstallOne(s: Server, fd: Fd)
    requires AtRest(s) && fd !in s.open
    ensures AtRest(Installed(s, fd)) && |s.home| == |s.fdOf| == |s.life|
  {
    var m := Inserting(s, fd);
    var k := |s.fdOf|;
    ReachableStep(m, EndInstall(0));
    var n := SetPc(m, 0, Ready);
    assert HeldOn(n, 0, k);
    OneLoop(n, InstalledLoop(s.loops[0], k, fd));
    assert Next(m, EndInstall(0)) == Installed(s, fd);
  }

  lemma FreshAtRest()
    ensures AtRest(Init(1))
  {
    assert CanRun(Init(1), []) && Run(Init(1), []) == Init(1);
  }

  /** The loop's poller reports the connections `ready`, and the first one's handler begins. */
  lemma Dispatching(s: Server, ready: seq<Id>) returns (r: Server)
    requires Reachable(s) && |s.loops| == 1 && ready != [] && Enabled(s, Poll(0, ready))
    requires InTable(s, 0, ready[0])
    ensures Reachable(r)
    ensures r == WithLoop(s, s.loops[0].(active := ready[1..], pc := Handling(ready[0])))
  {
    ReachableStep(s, Poll(0, ready));
    var m := Next(s, Poll(0, ready));
    assert HeldOn(m, 0, ready[0]);
    ReachableStep(m, BeginHandle(0));
    r := Next(m, BeginHandle(0));
    OneLoop(r, s.loops[0].(active := ready[1..], pc := Handling(ready[0])));
  }

  // --- A close before the connection is activated ---------------------------------------------

  /** The user's callback for a new connection closes it: the poller does not know its number yet. */
  lemma EarlyCloseIsReachable(fd: Fd) returns (s: Server)
    ensures Reachable(s) && Enabled(s, RequestClose(Some(0), 0)) && Next(s, RequestClose(Some(0), 0)).crashed
    ensures BeforeActivation(s, 0, 0) && s.loops[0].log == []
  {
    FreshAtRest();
    s := Constructing(Init(1), fd);
    assert HeldOn(s, 0, 0);
    CrashIff(s, RequestClose(Some(0), 0));
  }

  // --- A dispatch to a connection that another's handler closed --------------------------------

  lemma SecondInHand(fd: Fd, gd: Fd) returns (s: Server)
    requires fd != gd
    ensures AtRest(s) && s.loops[0].reg == map[fd := 0, gd := 1] == Table(s, 0) && s.fdOf == [fd, gd]
    ensures s.extra == multiset{}
  {
    FreshAtRest();
    InstallOne(Init(1), fd);
    var m := Installed(Init(1), fd);
    InstallOne(m, gd);
    s := Installed(m, gd);
  }

  /** Both connections are reported by one poll and the first one's handler is running: closing the
      second there makes the loop call handleEvent on a destroyed channel, by `StrikeDangles`. */
  lemma StrikeIsReachable(fd: Fd, gd: Fd) returns (s: Server)
    requires fd != gd
    ensures Reachable(s) && CanStrike(s, 0) && Run.requires(s, StrikeNext(0, 1)) && Run(s, StrikeNext(0, 1)).crashed
  {
    var s0 := SecondInHand(fd, gd);
    s := Dispatching(s0, [0, 1]);
    assert s.loops[0].active == [1];
    StrikeDangles(s, 0);
  }

  // --- A second close --------------------------------------------------------------------------

  /** The one connection has a close queued and nothing else is known of the loop but `pc`. */
  ghost predicate CloseQueued(s: Server, fd: Fd, pc: LoopPc) {
    && Reachable(s) && !s.crashed && |s.loops| == 1 && s.loops[0].pc == pc
    && s.loops[0].queue == [Close(0, fd)] && s.fdOf == [fd] && |s.home| == 1 && s.extra == multiset{}
  }

  lemma CloseAsked(fd: Fd) returns (s: Server)
    ensures CloseQueued(s, fd, Ready) && Idle(s, 0) && s.loops[0].reg == map[fd := 0] == Table(s, 0)
  {
    FreshAtRest();
    InstallOne(Init(1), fd);
    var s0 := Installed(Init(1), fd);
    assert HeldOn(s0, 0, 0);
    ReachableStep(s0, RequestClose(None, 0));
    s := Next(s0, RequestClose(None, 0));
  }

  lemma ClosingBusy(fd: Fd) returns (s: Server)
    ensures CloseQueued(s, fd, Handling(0)) && UserCode(s, 0) && s.loops[0].active == [] && InTable(s, 0, 0)
  {
    var s0 := CloseAsked(fd);
    s := Dispatching(s0, [0]);
  }

  lemma ClosedByHandler(fd: Fd) returns (s: Server)
    ensures CloseQueued(s, fd, Handling(0)) && Steady(s, 0) && s.loops[0].active == [] && AlreadyRemoved(s, 0, 0)
  {
    var s0 := ClosingBusy(fd);
    ReachableInv(s0);
    assert LoopOk(s0, 0);
    assert HeldOn(s0, 0, 0);
    CrashIff(s0, RequestClose(Some(0), 0));
    ReachableStep(s0, RequestClose(Some(0), 0));
    var s1 := Next(s0, RequestClose(Some(0), 0));
    s := Finished(s1, fd);
  }

  lemma Finished(s: Server, fd: Fd) returns (r: Server)
    requires CloseQueued(s, fd, Handling(0)) && s.loops[0].active == []
    requires s.loops[0].removing == Some(Removal(0, fd))
    ensures CloseQueued(r, fd, Handling(0)) && Steady(r, 0) && r.loops[0].active == [] && AlreadyRemoved(r, 0, 0)
  {
    ReachableInv(s);
    ReachableStep(s, FinishRemoval(0));
    EraseIsErasing(s, 0);
    r := Next(s, FinishRemoval(0));
  }

  /** Another thread asks to close a connection, as the idle timer does, and before that task runs the
      connection's own handler closes it too: the number is free, and the task finds no channel. */
  lemma SecondCloseIsReachable(fd: Fd) returns (s: Server)
    ensures Reachable(s) && Enabled(s, BeginClose(0)) && Next(s, BeginClose(0)).crashed && fd !in s.open
  {
    var s0 := ClosedByHandler(fd);
    s := HandlerEnds(s0, fd);
    ReachableInv(s);
    RemovedIffErased(s, 0, 0);
    InTableIffMapped(s, 0, 0);
    CrashIff(s, BeginClose(0));
  }

  lemma HandlerEnds(s: Server, fd: Fd) returns (r: Server)
    requires CloseQueued(s, fd, Handling(0)) && Steady(s, 0) && s.loops[0].active == [] && AlreadyRemoved(s, 0, 0)
    ensures CloseQueued(r, fd, Ready) && Idle(r, 0) && AlreadyRemoved(r, 0, 0) && fd !in r.open
  {
    ReachableInv(s);
    assert LoopOk(s, 0);
    RemovedIffErased(s, 0, 0);
    InTableIffMapped(s, 0, 0);
    ReachableStep(s, EndHandle(0));
    assert !Held(SetPc(s, 0, Ready), 0);
    r := Next(s, EndHandle(0));
  }
}
