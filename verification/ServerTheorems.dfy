/** What holds of connections, descriptors and tables in every reachable state. */
module ServerTheorems {
  import opened Options
  import opened Sequences
  import opened ServerModel
  import opened ServerInvariant
  import opened ServerSteps

  ghost predicate Reachable(s: Server) {
    exists n: nat, acts: seq<Action> :: n > 0 && CanRun(Init(n), acts) && s == Run(Init(n), acts)
  }

  lemma ReachableInv(s: Server)
    requires Reachable(s)
    ensures Inv(s)
  {
    var n: nat, acts: seq<Action> :| n > 0 && CanRun(Init(n), acts) && s == Run(Init(n), acts);
    InitInv(n);
    RunInv(Init(n), acts);
  }

  lemma {:induction false} RunSnoc(s: Server, acts: seq<Action>, a: Action)
    requires CanRun(s, acts) && Enabled(Run(s, acts), a)
    ensures CanRun(s, acts + [a]) && Run(s, acts + [a]) == Next(Run(s, acts), a)
    decreases |acts|
  {
    if acts == [] {
      assert CanRun(Next(s, a), []);
      assert (acts + [a])[1..] == [];
    } else {
      assert (acts + [a])[1..] == acts[1..] + [a];
      RunSnoc(Next(s, acts[0]), acts[1..], a);
    }
  }

  lemma ReachableStep(s: Server, a: Action)
    requires Reachable(s) && Enabled(s, a)
    ensures Reachable(Next(s, a))
  {
    var n: nat, acts: seq<Action> :| n > 0 && CanRun(Init(n), acts) && s == Run(Init(n), acts);
    RunSnoc(Init(n), acts, a);
  }

  // --- One owner per open number --------------------------------------------------------------

  datatype Owner =
    | OwnedByAcceptor
    | OwnedByTask(loop: nat, at: nat)
    | OwnedByLocal(loop: nat)             // newConnnection's own pointer, not yet in a table
    | OwnedByTable(loop: nat)
    | OwnedByPointer                      // erased: only a guard or another pointer is left

  predicate InTable(s: Server, l: nat, k: Id) {
    k < |s.fdOf| && s.fdOf[k] in Table(s, l) && Table(s, l)[s.fdOf[k]] == k
  }

  predicate IsLocal(s: Server, l: nat, k: Id) {
    l < |s.loops| && (s.loops[l].pc == Constructed(k) || s.loops[l].pc == Activated(k))
  }

  ghost predicate Owns(s: Server, o: Owner, k: Id) {
    match o
    case OwnedByAcceptor => s.accepting == Some(k)
    case OwnedByTask(l, i) =>
      l < |s.loops| && i < |s.loops[l].queue| && k < |s.fdOf| && s.loops[l].queue[i] == Install(k, s.fdOf[k])
    case OwnedByLocal(l) => IsLocal(s, l, k)
    case OwnedByTable(l) => l < |s.loops| && InTable(s, l, k)
    case OwnedByPointer =>
      Held(s, k) && forall l: nat | l < |s.loops| :: !InTable(s, l, k) && !IsLocal(s, l, k)
  }

  function LifeOf(o: Owner): Life {
    match o
    case OwnedByAcceptor => Accepted
    case OwnedByTask(_, _) => Queued
    case OwnedByLocal(_) => Building
    case OwnedByTable(_) => Mapped
    case OwnedByPointer => Detached
  }

  lemma OwnerFixesLife(s: Server, o: Owner, k: Id)
    requires Inv(s) && k < |s.fdOf| && Owns(s, o, k)
    ensures s.life[k] == LifeOf(o)
    ensures !o.OwnedByAcceptor? && !o.OwnedByPointer? ==> k < |s.home| && o.loop == s.home[k]
  {
    assert LifeOk(s, k);
    match o
    case OwnedByAcceptor =>
    case OwnedByTask(l, i) => assert LoopOk(s, l) && TaskOk(s, l, i);
    case OwnedByLocal(l) => assert LoopOk(s, l);
    case OwnedByTable(l) =>
      assert LoopOk(s, l);
      assert HomedOn(s, l, Table(s, l)[s.fdOf[k]], s.fdOf[k]);
    case OwnedByPointer =>
      HeldLife(s, k);
      assert !InTable(s, s.home[k], k) && !IsLocal(s, s.home[k], k);
  }

  lemma AnOwner(s: Server, k: Id) returns (o: Owner)
    requires Inv(s) && k < |s.fdOf| && s.life[k] != Closed
    ensures Owns(s, o, k)
  {
    assert LifeOk(s, k) && DetachedOk(s, k);
    match s.life[k]
    case Accepted => o := OwnedByAcceptor;
    case Queued =>
      var i :| 0 <= i < |s.loops[s.home[k]].queue| && s.loops[s.home[k]].queue[i] == Install(k, s.fdOf[k]);
      o := OwnedByTask(s.home[k], i);
    case Building => o := OwnedByLocal(s.home[k]);
    case Mapped => o := OwnedByTable(s.home[k]);
    case Detached =>
      o := OwnedByPointer;
      assert 0 <= s.home[k] < |s.loops|;
      assert k !in s.extra ==> HeldOn(s, s.home[k], k);
      forall l: nat | l < |s.loops|
        ensures !InTable(s, l, k) && !IsLocal(s, l, k)
      {
        assert LoopOk(s, l);
      }
  }

  lemma OwnerIsUnique(s: Server, o: Owner, p: Owner, k: Id)
    requires Inv(s) && k < |s.fdOf| && Owns(s, o, k) && Owns(s, p, k)
    ensures o == p
  {
    OwnerFixesLife(s, o, k);
    OwnerFixesLife(s, p, k);
    if o.OwnedByTask? {
      assert LoopOk(s, o.loop);
    }
  }

  /** A number is open for connection k exactly while k has an owner, and then it has exactly one:
      the accept in progress, one position of one queue, one installing loop, one table, or, once
      erased, the pointers that are left. Numbers reused meanwhile change nothing of this. */
  lemma OneOwner(s: Server, k: Id)
    requires Reachable(s) && k < |s.fdOf|
    ensures s.fdOf[k] in s.open && s.open[s.fdOf[k]] == k <==> exists o :: Owns(s, o, k)
    ensures forall o, p | Owns(s, o, k) && Owns(s, p, k) :: o == p
  {
    ReachableInv(s);
    assert LifeOk(s, k);
    forall o, p | Owns(s, o, k) && Owns(s, p, k)
      ensures o == p
    {
      OwnerIsUnique(s, o, p, k);
    }
    if s.life[k] != Closed {
      var o := AnOwner(s, k);
    } else {
      forall o
        ensures !Owns(s, o, k)
      {
        if Owns(s, o, k) {
          OwnerFixesLife(s, o, k);
        }
      }
    }
  }

  /** Every open number belongs to a connection that was accepted with it. */
  lemma OpenIsAccepted(s: Server, fd: Fd)
    requires Reachable(s) && fd in s.open
    ensures s.open[fd] < |s.fdOf| && s.fdOf[s.open[fd]] == fd && exists o :: Owns(s, o, s.open[fd])
  {
    ReachableInv(s);
    assert LifeOk(s, s.open[fd]);
    var o := AnOwner(s, s.open[fd]);
  }

  // --- Tables ---------------------------------------------------------------------------------

  /** The sharded map is the fold of what each loop installed and removed, and every removal took the
      very connection whose close was asked for. */
  lemma TablesAreTheirLogs(s: Server, l: nat)
    requires Reachable(s) && l < |s.loops|
    ensures l in s.connectionMap && s.connectionMap[l] == Fold(s.loops[l].log)
    ensures forall e | e in s.loops[l].log && e.Rem? :: e.victim == Some(e.request)
  {
    ReachableInv(s);
    assert LoopOk(s, l);
  }

  /** `insert` is never the silent no-op it is for a key that is present. */
  lemma InsertFindsAbsent(s: Server, l: nat)
    requires Reachable(s) && Enabled(s, Insert(l))
    ensures s.fdOf[s.loops[l].pc.id] !in Table(s, l)
    ensures InTable(Next(s, Insert(l)), l, s.loops[l].pc.id)
  {
    ReachableInv(s);
    assert LoopOk(s, l);
  }

  lemma NextKeepsLoops(s: Server, a: Action)
    requires Enabled(s, a)
    ensures |Next(s, a).loops| == |s.loops|
  {
    match a
    case EndInstall(l) =>
    case EndHandle(l) =>
    case BeginClose(l) =>
    case FinishRemoval(l) =>
    case RequestClose(from, k) =>
    case _ =>
  }

  lemma {:induction false} RunKeepsLoops(s: Server, acts: seq<Action>)
    requires CanRun(s, acts)
    ensures |Run(s, acts).loops| == |s.loops|
    decreases |acts|
  {
    if acts != [] {
      NextKeepsLoops(s, acts[0]);
      RunKeepsLoops(Next(s, acts[0]), acts[1..]);
    }
  }

  /** No operator[] ever adds a shard: in any run the keys are the loops `start` put there. */
  lemma ShardsFixed(n: nat, acts: seq<Action>)
    requires n > 0 && CanRun(Init(n), acts)
    ensures forall l: nat :: l in Run(Init(n), acts).connectionMap <==> l < n
  {
    InitInv(n);
    RunInv(Init(n), acts);
    RunKeepsLoops(Init(n), acts);
  }

  /** The thread that takes a step: that of loop l, or none of the loops' when it is None. */
  function Performer(a: Action): Option<nat> {
    match a
    case Accept(_) => None
    case HandOver => None
    case RequestClose(from, _) => from
    case CopyPointer(_) => None
    case DropPointer(_) => None
    case BeginInstall(l) => Some(l)
    case Activate(l) => Some(l)
    case Insert(l) => Some(l)
    case EndInstall(l) => Some(l)
    case Poll(l, _) => Some(l)
    case BeginHandle(l) => Some(l)
    case EndHandle(l) => Some(l)
    case BeginClose(l) => Some(l)
    case FinishRemoval(l) => Some(l)
  }

  /** Loop l keeps its table and all its state, except that its queue may have grown. */
  predicate KeepsShard(s: Server, n: Server, l: nat)
    requires l < |s.loops| == |n.loops|
  {
    && Table(n, l) == Table(s, l)
    && n.loops[l] == s.loops[l].(queue := n.loops[l].queue)
    && s.loops[l].queue <= n.loops[l].queue
  }

  /** A loop's table, poller and log are changed by that loop's own thread only; that is why the map
      needs no lock. Other threads reach a loop through the end of its queue. */
  lemma ShardsAreThreadLocal(s: Server, a: Action, l: nat)
    requires Reachable(s) && Enabled(s, a) && l < |s.loops| && Performer(a) != Some(l)
    ensures |Next(s, a).loops| == |s.loops| && KeepsShard(s, Next(s, a), l)
  {
    ReachableInv(s);
    NextKeepsLoops(s, a);
    OthersKeepShard(s, a, l);
  }

  lemma EraseElsewhere(s: Server, o: nat, r: Removal, l: nat)
    requires o < |s.loops| && l < |s.loops| && o != l
    ensures |Erase(s, o, r).loops| == |s.loops| && KeepsShard(s, Erase(s, o, r), l)
  {
  }

  lemma CloseElsewhere(s: Server, from: Option<nat>, k: Id, l: nat)
    requires Enabled(s, RequestClose(from, k)) && l < |s.loops| && from != Some(l)
    ensures |Next(s, RequestClose(from, k)).loops| == |s.loops|
    ensures KeepsShard(s, Next(s, RequestClose(from, k)), l)
  {
  }

  /** A released pointer is no loop's business. */
  lemma ReleasedLoops(s: Server, k: Id)
    ensures Released(s, k).loops == s.loops && Released(s, k).connectionMap == s.connectionMap
  {
  }

  lemma ReleaseElsewhere(s: Server, a: Action, l: nat)
    requires Enabled(s, a) && l < |s.loops| && Performer(a) != Some(l)
    requires a.EndInstall? || a.EndHandle? || a.DropPointer?
    ensures |Next(s, a).loops| == |s.loops| && KeepsShard(s, Next(s, a), l)
  {
    if a.DropPointer? {
      ReleasedLoops(s.(extra := s.extra - multiset{a.id}), a.id);
    } else {
      ReleasedLoops(SetPc(s, a.l, Ready), s.loops[a.l].pc.id);
    }
  }

  lemma HandOverElsewhere(s: Server, l: nat)
    requires Enabled(s, HandOver) && l < |s.loops|
    ensures |Next(s, HandOver).loops| == |s.loops| && KeepsShard(s, Next(s, HandOver), l)
  {
  }

  lemma OthersKeepShard(s: Server, a: Action, l: nat)
    requires Enabled(s, a) && l < |s.loops| == |Next(s, a).loops| && Performer(a) != Some(l)
    ensures KeepsShard(s, Next(s, a), l)
  {
    match a
    case HandOver => HandOverElsewhere(s, l);
    case FinishRemoval(o) => EraseElsewhere(s, o, s.loops[o].removing.value, l);
    case RequestClose(from, k) => CloseElsewhere(s, from, k, l);
    case EndInstall(_) => ReleaseElsewhere(s, a, l);
    case EndHandle(_) => ReleaseElsewhere(s, a, l);
    case DropPointer(_) => ReleaseElsewhere(s, a, l);
    case _ =>
  }

  // --- Registration and lifetimes -------------------------------------------------------------

  /** Number fd is open and belongs to the connection that loop l's poller has for it. */
  predicate RegisteredAsOpen(s: Server, l: nat, fd: Fd)
    requires l < |s.loops| && fd in s.loops[l].reg
  {
    var k := s.loops[l].reg[fd];
    fd in s.open && s.open[fd] == k && k < |s.fdOf| && s.fdOf[k] == fd
  }

  /** Outside activation and removal, in particular between callbacks and in user code, a loop's poller
      knows exactly the connections of its table; at every moment what it knows is open and is that
      connection. */
  lemma RegistrationFollowsOwnership(s: Server, l: nat)
    requires Reachable(s) && l < |s.loops|
    ensures s.loops[l].removing == None && !s.loops[l].pc.Activated? ==> s.loops[l].reg == Table(s, l)
    ensures forall fd | fd in s.loops[l].reg ::
              RegisteredAsOpen(s, l, fd)
  {
    ReachableInv(s);
    assert LoopOk(s, l);
    forall fd | fd in s.loops[l].reg
      ensures RegisteredAsOpen(s, l, fd)
    {
      var k := s.loops[l].reg[fd];
      if fd in Table(s, l) && Table(s, l)[fd] == k {
        assert HomedOn(s, l, Table(s, l)[fd], fd);
      }
      assert LifeOk(s, k);
    }
  }

  /** During handleEvent the connection is alive and its number its own, even after its callback has
      removed it from the table. */
  lemma HandlerLifetime(s: Server, l: nat)
    requires Reachable(s) && l < |s.loops| && s.loops[l].pc.Handling?
    ensures var k := s.loops[l].pc.id;
            Held(s, k) && k < |s.fdOf| && s.fdOf[k] in s.open && s.open[s.fdOf[k]] == k
  {
    ReachableInv(s);
    assert LoopOk(s, l);
    assert HeldOn(s, l, s.loops[l].pc.id);
    assert LifeOk(s, s.loops[l].pc.id);
  }

  // --- ActivityChannel ------------------------------------------------------------------------

  /** The next pointer of ActivityChannel dangles if and only if its connection was removed from the
      table since poll reported it and no other pointer is left. */
  lemma DanglesIff(s: Server, l: nat)
    requires Reachable(s) && Enabled(s, BeginHandle(l))
    ensures var k := s.loops[l].active[0];
            && k < |s.fdOf|
            && (Next(s, BeginHandle(l)).crashed <==> !InTable(s, l, k) && k !in s.extra)
            && (!InTable(s, l, k) <==> AlreadyRemoved(s, l, k))
  {
    ReachableInv(s);
    var k := s.loops[l].active[0];
    ActiveIsHeld(s, l, k);
    InTableIffMapped(s, l, k);
    RemovedIffErased(s, l, k);
    BeginHandleInv(s, l);
    assert DetachedOk(s, k);
    if k in s.extra {
      assert Held(s, k);
    }
  }

  /** A callback on loop a.from closes a connection that poll reported and that has not had its turn. A
      handler that closes its own connection only does not. */
  predicate Strikes(s: Server, a: Action) {
    a.RequestClose? && a.from.Some? && a.from.value < |s.loops| && a.id in s.loops[a.from.value].active
  }

  lemma OwnCloseStrikesNot(s: Server, l: nat)
    requires Reachable(s) && l < |s.loops| && s.loops[l].pc.Handling?
    ensures !Strikes(s, RequestClose(Some(l), s.loops[l].pc.id))
  {
    ReachableInv(s);
    assert LoopOk(s, l);
  }

  predicate NeverStrikes(s: Server, acts: seq<Action>)
    requires CanRun(s, acts)
    decreases |acts|
  {
    acts == [] || (!Strikes(s, acts[0]) && NeverStrikes(Next(s, acts[0]), acts[1..]))
  }

  /** Whatever is still to be dispatched is in the table and not being removed. */
  predicate Unstruck(s: Server, l: nat) {
    l < |s.loops| ==>
      forall k | k in s.loops[l].active ::
        InTable(s, l, k) && (s.loops[l].removing.Some? ==> s.loops[l].removing.value.id != k)
  }

  lemma UnstruckShard(s: Server, n: Server, l: nat)
    requires Unstruck(s, l) && l < |s.loops| == |n.loops| && KeepsShard(s, n, l) && s.fdOf <= n.fdOf
    ensures Unstruck(n, l)
  {
  }

  lemma UnstruckErase(s: Server, l: nat)
    requires Inv(s) && Enabled(s, FinishRemoval(l)) && Unstruck(s, l)
    ensures Unstruck(Next(s, FinishRemoval(l)), l)
  {
    EraseIsErasing(s, l);
  }

  lemma UnstruckPoll(s: Server, l: nat, ready: seq<Id>)
    requires Inv(s) && Enabled(s, Poll(l, ready))
    ensures Unstruck(Next(s, Poll(l, ready)), l)
  {
    assert LoopOk(s, l);
  }

  lemma NumbersStay(s: Server, a: Action)
    requires Enabled(s, a)
    ensures s.fdOf <= Next(s, a).fdOf
  {
    match a
    case FinishRemoval(l) =>
    case _ =>
  }

  lemma UnstruckOwn(s: Server, a: Action, l: nat)
    requires Inv(s) && Enabled(s, a) && Unstruck(s, l) && Performer(a) == Some(l) && !Strikes(s, a)
    ensures Unstruck(Next(s, a), l)
  {
    assert l < |s.loops| ==> LoopOk(s, l);
    match a
    case FinishRemoval(_) => UnstruckErase(s, l);
    case Poll(_, ready) => UnstruckPoll(s, l, ready);
    case EndInstall(_) => UnstruckEnd(s, l);
    case EndHandle(_) => UnstruckEnd(s, l);
    case RequestClose(_, k) => UnstruckClose(s, l, k);
    case BeginHandle(_) => UnstruckBegin(s, l);
    case BeginInstall(_) => NoneActive(s, a, l);
    case Activate(_) => NoneActive(s, a, l);
    case Insert(_) => NoneActive(s, a, l);
    case BeginClose(_) => NoneActive(s, a, l);
    case _ =>
  }

  lemma UnstruckEnd(s: Server, l: nat)
    requires Unstruck(s, l) && l < |s.loops| && s.loops[l].pc != Ready
    ensures var k := LocalOrGuard(s.loops[l].pc).value; Unstruck(Released(SetPc(s, l, Ready), k), l)
  {
  }

  lemma UnstruckBegin(s: Server, l: nat)
    requires Enabled(s, BeginHandle(l)) && Unstruck(s, l)
    ensures Unstruck(Next(s, BeginHandle(l)), l)
  {
    assert forall k | k in s.loops[l].active[1..] :: k in s.loops[l].active;
  }

  lemma UnstruckClose(s: Server, l: nat, k: Id)
    requires Enabled(s, RequestClose(Some(l), k)) && Unstruck(s, l) && k !in s.loops[l].active
    ensures Unstruck(Next(s, RequestClose(Some(l), k)), l)
  {
  }

  lemma NoneActive(s: Server, a: Action, l: nat)
    requires Enabled(s, a) && l < |s.loops| && ActiveOk.requires(s, l) && ActiveOk(s, l)
    requires a == BeginInstall(l) || a == Activate(l) || a == Insert(l) || a == BeginClose(l)
    ensures Next(s, a).crashed || (l < |Next(s, a).loops| && Next(s, a).loops[l].active == [])
    ensures Next(s, a).crashed ==> Next(s, a) == Pop(s, l).(crashed := true)
  {
  }

  lemma {:induction false} UnstruckRun(s: Server, acts: seq<Action>, l: nat)
    requires Inv(s) && CanRun(s, acts) && NeverStrikes(s, acts) && Unstruck(s, l)
    ensures Inv(Run(s, acts)) && Unstruck(Run(s, acts), l)
    decreases |acts|
  {
    if acts != [] {
      var n := Next(s, acts[0]);
      NextInv(s, acts[0]);
      NextKeepsLoops(s, acts[0]);
      if Performer(acts[0]) == Some(l) {
        UnstruckOwn(s, acts[0], l);
      } else if l < |s.loops| {
        OthersKeepShard(s, acts[0], l);
        NumbersStay(s, acts[0]);
        UnstruckShard(s, n, l);
      }
      UnstruckRun(n, acts[1..], l);
    }
  }

  /** No pointer in ActivityChannel dangles in any run in which no callback closes a connection that is
      still waiting in it, other threads and other loops doing what they like. */
  lemma DispatchIsSafe(n: nat, acts: seq<Action>, l: nat)
    requires n > 0 && CanRun(Init(n), acts) && NeverStrikes(Init(n), acts)
    ensures var s := Run(Init(n), acts);
            && (l < |s.loops| ==> forall k | k in s.loops[l].active :: Held(s, k) && InTable(s, l, k))
            && (Enabled(s, BeginHandle(l)) ==> !Next(s, BeginHandle(l)).crashed)
  {
    InitInv(n);
    var s := Run(Init(n), acts);
    UnstruckRun(Init(n), acts, l);
    if l < |s.loops| {
      forall k | k in s.loops[l].active
        ensures Held(s, k) && InTable(s, l, k)
      {
        assert HeldOn(s, l, k);
      }
    }
  }

  /** In a handler, with a connection next in turn that nothing but the table keeps. */
  predicate CanStrike(s: Server, l: nat) {
    && |s.loops| > 0 && !s.crashed && Steady(s, l) && s.loops[l].pc.Handling? && s.loops[l].active != []
    && InTable(s, l, s.loops[l].active[0]) && s.loops[l].active[0] !in s.extra
  }

  /** There, a close of that connection always makes the dispatch run into a dead pointer. */
  function StrikeNext(l: nat, j: Id): seq<Action> {
    [RequestClose(Some(l), j), FinishRemoval(l), EndHandle(l), BeginHandle(l)]
  }

  lemma StrikeDangles(s: Server, l: nat)
    requires Reachable(s) && CanStrike(s, l)
    ensures CanRun(s, StrikeNext(l, s.loops[l].active[0]))
    ensures Run(s, StrikeNext(l, s.loops[l].active[0])).crashed
  {
    ReachableInv(s);
    var j := s.loops[l].active[0];
    var s1 := StrikeStarts(s, l);
    var s2 := StrikeErases(s1, l, j);
    var s3 := DeadDispatch(s2, l, j);
    StrikeRun(s, s1, s2, s3, l, j);
  }

  lemma DeadDispatch(s: Server, l: nat, j: Id) returns (r: Server)
    requires Inv(s) && Enabled(s, EndHandle(l)) && s.loops[l].active != [] && s.loops[l].active[0] == j
    requires j < |s.life| && s.life[j] == Closed
    ensures r == Next(s, EndHandle(l)) && Enabled(r, BeginHandle(l)) && Next(r, BeginHandle(l)).crashed
  {
    NextInv(s, EndHandle(l));
    EndKeepsClosed(s, l, j);
    r := Next(s, EndHandle(l));
    BeginHandleInv(r, l);
  }

  lemma StrikeRun(s: Server, s1: Server, s2: Server, s3: Server, l: nat, j: Id)
    requires Enabled(s, RequestClose(Some(l), j)) && s1 == Next(s, RequestClose(Some(l), j))
    requires Enabled(s1, FinishRemoval(l)) && s2 == Next(s1, FinishRemoval(l))
    requires Enabled(s2, EndHandle(l)) && s3 == Next(s2, EndHandle(l))
    requires Enabled(s3, BeginHandle(l))
    ensures CanRun(s, StrikeNext(l, j)) && Run(s, StrikeNext(l, j)) == Next(s3, BeginHandle(l))
  {
    var a, b, c, d := RequestClose(Some(l), j), FinishRemoval(l), EndHandle(l), BeginHandle(l);
    RunSnoc(s, [], a);
    assert [] + [a] == [a];
    RunSnoc(s, [a], b);
    assert [a] + [b] == [a, b];
    RunSnoc(s, [a, b], c);
    assert [a, b] + [c] == [a, b, c];
    RunSnoc(s, [a, b, c], d);
    assert [a, b, c] + [d] == StrikeNext(l, j);
  }

  lemma EndKeepsClosed(s: Server, l: nat, j: Id)
    requires Enabled(s, EndHandle(l)) && j < |s.life| && s.life[j] == Closed
    ensures var n := Next(s, EndHandle(l));
            && j < |n.life| && n.life[j] == Closed && |n.loops| == |s.loops| && n.crashed == s.crashed
            && n.loops[l] == s.loops[l].(pc := Ready)
  {
  }

  lemma StrikeStarts(s: Server, l: nat) returns (r: Server)
    requires Inv(s) && CanStrike(s, l)
    ensures var j := s.loops[l].active[0];
            && Enabled(s, RequestClose(Some(l), j)) && r == Next(s, RequestClose(Some(l), j))
            && Inv(r) && !r.crashed && j < |r.home| && r.home[j] == l && r.life[j] == Mapped && j !in r.extra
            && |r.loops| == |s.loops| && RemovalPending(r, l, j)
            && r.loops[l].pc == s.loops[l].pc != Handling(j) && r.loops[l].active == s.loops[l].active
  {
    var j := s.loops[l].active[0];
    ActiveIsHeld(s, l, j);
    InTableIffMapped(s, l, j);
    assert LoopOk(s, l);
    RegisteredIffMapped(s, l, j);
    NextInv(s, RequestClose(Some(l), j));
    r := Next(s, RequestClose(Some(l), j));
  }

  lemma StrikeErases(s: Server, l: nat, j: Id) returns (r: Server)
    requires Inv(s) && !s.crashed && RemovalPending(s, l, j)
    requires j < |s.home| && s.home[j] == l && s.life[j] == Mapped && j !in s.extra && s.loops[l].pc != Handling(j)
    ensures Enabled(s, FinishRemoval(l)) && r == Next(s, FinishRemoval(l))
    ensures Inv(r) && !r.crashed && j < |r.life| && r.life[j] == Closed && |r.loops| == |s.loops|
    ensures s.loops[l].pc.Handling? ==> Enabled(r, EndHandle(l))
    ensures r.loops[l].pc == s.loops[l].pc && r.loops[l].active == s.loops[l].active && r.loops[l].removing == None
  {
    NextInv(s, FinishRemoval(l));
    EraseIsErasing(s, l);
    r := Next(s, FinishRemoval(l));
    ErasedIsDetached(s, l, j);
  }

  /** Erased, and with no guard or pointer left, a connection is destroyed on the spot. */
  lemma ErasedIsDetached(s: Server, l: nat, j: Id)
    requires Inv(s) && RemovalPending(s, l, j) && j < |s.home| && s.home[j] == l && s.life[j] == Mapped
    requires s.fdOf[j] in Table(s, l) && Table(s, l)[s.fdOf[j]] == j
    requires j !in s.extra && s.loops[l].pc != Handling(j)
    ensures Released(Erasing(s, l, j), j).life[j] == Closed
  {
    var n := Erasing(s, l, j);
    ErasedInv(s, l, j);
    if Held(n, j) {
      HeldLife(n, j);
    }
  }

  // --- Dispatch -------------------------------------------------------------------------------

  lemma {:induction false} AssignedMembers(l: nat, n: nat, m: nat, i: nat)
    requires n > 0 && i < |Assigned(l, n, m)|
    ensures Assigned(l, n, m)[i] < m && Assigned(l, n, m)[i] % n == l
  {
    if i < |Assigned(l, n, m - 1)| {
      AssignedMembers(l, n, m - 1, i);
    }
  }

  lemma {:induction false} InstalledMember(log: seq<Event>, i: nat) returns (j: nat)
    requires i < |log| && log[i].Ins?
    ensures j < |InstallsOf(log)| && InstallsOf(log)[j] == log[i].id
  {
    var k := |log| - 1;
    if i == k {
      j := |InstallsOf(log)| - 1;
    } else {
      j := InstalledMember(log[..k], i);
    }
  }

  /** Whatever the interleaving, loop l installs, in accept order, connections l, l + n, l + 2n, ...
      and nothing else; none handed over is lost. */
  lemma InstalledInAcceptOrder(s: Server, l: nat)
    requires Reachable(s) && l < |s.loops|
    ensures InstallsOf(s.loops[l].log) <= Assigned(l, |s.loops|, |s.home|)
    ensures s.loops[l].pc == Ready && (forall t | t in s.loops[l].queue :: t.Close?)
            ==> InstallsOf(s.loops[l].log) == Assigned(l, |s.loops|, |s.home|)
  {
    ReachableInv(s);
    assert LoopOk(s, l);
    var all := Assigned(l, |s.loops|, |s.home|);
    var done, waiting := InstallsOf(s.loops[l].log), BuildingIds(s.loops[l].pc) + QueuedIds(s.loops[l].queue);
    Regroup(done, BuildingIds(s.loops[l].pc), QueuedIds(s.loops[l].queue));
    assert all == done + waiting;
    if forall t | t in s.loops[l].queue :: t.Close? {
      NoInstallsQueued(s.loops[l].queue);
      assert s.loops[l].pc == Ready ==> waiting == [];
    }
  }

  lemma {:induction false} NoInstallsQueued(q: seq<Task>)
    requires forall t | t in q :: t.Close?
    ensures QueuedIds(q) == []
  {
    if q != [] {
      assert q[|q| - 1] in q;
      NoInstallsQueued(q[..|q| - 1]);
    }
  }

  lemma InstalledOnlyAtHome(s: Server, l: nat, i: nat)
    requires Reachable(s) && l < |s.loops| && i < |s.loops[l].log| && s.loops[l].log[i].Ins?
    ensures s.loops[l].log[i].id % |s.loops| == l
  {
    InstalledInAcceptOrder(s, l);
    var j := InstalledMember(s.loops[l].log, i);
    AssignedMembers(l, |s.loops|, |s.home|, j);
  }

  // --- Exactly when a close goes wrong --------------------------------------------------------

  /** The loop and connection whose removal this step starts, if it starts one. */
  function Starts(s: Server, a: Action): Option<(nat, Id)>
    requires Enabled(s, a)
  {
    match a
    case BeginClose(l) => Some((l, s.loops[l].queue[0].id))
    case RequestClose(from, k) => if from == Some(s.home[k]) then Some((s.home[k], k)) else None
    case _ => None
  }

  predicate AlreadyRemoved(s: Server, l: nat, k: Id)
    requires l < |s.loops| && k < |s.fdOf|
  {
    Rem(k, Some(k), s.fdOf[k]) in s.loops[l].log
  }

  /** Loop l runs the user's callback for the new connection k, which comes before its activation. */
  predicate BeforeActivation(s: Server, l: nat, k: Id)
    requires l < |s.loops|
  {
    s.loops[l].pc == Constructed(k)
  }

  lemma RemovedIffErased(s: Server, l: nat, k: Id)
    requires Inv(s) && l < |s.loops| && k < |s.home| && s.home[k] == l
    ensures AlreadyRemoved(s, l, k) <==> Erased(s.life[k])
  {
    assert LoopOk(s, l);
    var e := Rem(k, Some(k), s.fdOf[k]);
    assert e in s.loops[l].log ==> HomedOn(s, l, e.request, e.fd);
  }

  /** A removal that starts finds its channel if and only if its connection is in its loop's table, and
      then unregisters exactly that connection; otherwise the poller uses a channel that is not there.
      The connection is not in the table if and only if it was removed before, or it is the one whose
      new-connection callback is running. */
  lemma CrashIff(s: Server, a: Action)
    requires Reachable(s) && Enabled(s, a) && Starts(s, a).Some?
    ensures var l, k := Starts(s, a).value.0, Starts(s, a).value.1;
            && l < |s.loops| && k < |s.fdOf|
            && (Next(s, a).crashed <==> !InTable(s, l, k))
            && (!InTable(s, l, k) <==> AlreadyRemoved(s, l, k) || BeforeActivation(s, l, k))
            && (InTable(s, l, k) ==>
                  && s.fdOf[k] in s.loops[l].reg && s.loops[l].reg[s.fdOf[k]] == k
                  && |Next(s, a).loops| == |s.loops|
                  && Next(s, a).loops[l].reg == s.loops[l].reg - {s.fdOf[k]}
                  && Next(s, a).loops[l].removing == Some(Removal(k, s.fdOf[k])))
  {
    ReachableInv(s);
    if a.BeginClose? {
      BeginCloseCrash(s, a.l);
    } else {
      RequestCloseCrash(s, a.id);
    }
  }

  /** Nothing else crashes but a dispatch. */
  lemma OthersAreSafe(s: Server, a: Action)
    requires Enabled(s, a) && Starts(s, a) == None && !a.BeginHandle?
    ensures !Next(s, a).crashed
  {
    match a
    case FinishRemoval(l) =>
    case RequestClose(from, k) =>
    case _ =>
  }

  lemma InTableIffMapped(s: Server, l: nat, k: Id)
    requires Inv(s) && l < |s.loops| && k < |s.home| && s.home[k] == l
    ensures InTable(s, l, k) <==> s.life[k] == Mapped
  {
    assert LifeOk(s, k);
    assert LoopOk(s, l);
    assert InTable(s, l, k) ==> HomedOn(s, l, k, s.fdOf[k]) && s.life[Table(s, l)[s.fdOf[k]]] == Mapped;
  }

  lemma BeginCloseCrash(s: Server, l: nat)
    requires Inv(s) && Enabled(s, BeginClose(l))
    ensures var k := s.loops[l].queue[0].id;
            && k < |s.fdOf| && s.loops[l].queue[0].fd == s.fdOf[k]
            && (Next(s, BeginClose(l)).crashed <==> !InTable(s, l, k))
            && (!InTable(s, l, k) <==> AlreadyRemoved(s, l, k))
            && (InTable(s, l, k) ==> s.fdOf[k] in s.loops[l].reg && s.loops[l].reg[s.fdOf[k]] == k)
  {
    QueuedCloseIsOwn(s, l);
    var k := s.loops[l].queue[0].id;
    assert LoopOk(s, l) && TaskOk(s, l, 0);
    assert LifeOk(s, k);
    InTableIffMapped(s, l, k);
    RemovedIffErased(s, l, k);
  }

  lemma RequestCloseCrash(s: Server, k: Id)
    requires Inv(s) && k < |s.home| && Enabled(s, RequestClose(Some(s.home[k]), k))
    ensures var l := s.home[k];
            && (Next(s, RequestClose(Some(l), k)).crashed <==> !InTable(s, l, k))
            && (!InTable(s, l, k) <==> AlreadyRemoved(s, l, k) || BeforeActivation(s, l, k))
            && (InTable(s, l, k) ==> s.fdOf[k] in s.loops[l].reg && s.loops[l].reg[s.fdOf[k]] == k)
  {
    var l := s.home[k];
    HeldLife(s, k);
    assert LoopOk(s, l);
    assert LifeOk(s, k);
    RegisteredIffMapped(s, l, k);
    InTableIffMapped(s, l, k);
    RemovedIffErased(s, l, k);
  }
}
