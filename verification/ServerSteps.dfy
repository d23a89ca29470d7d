/** Each step of the server keeps the invariant. */
module ServerSteps {
  import opened Options
  import opened ServerModel
  import opened ServerInvariant
  import Modulo
  import ThreadPool

  // --- A step of one loop that concerns one connection ----------------------------------------

  /** Loop o and its table are as they were. */
  predicate SameLoop(s: Server, n: Server, o: nat)
    requires o < |s.loops| == |n.loops|
  {
    n.loops[o] == s.loops[o] && Table(n, o) == Table(s, o)
  }

  /** On loop l, every connection but k stays where it is. */
  ghost predicate KeepsPlaces(s: Server, n: Server, l: nat, k: Id)
    requires l < |s.loops| == |n.loops|
  {
    var L, M := s.loops[l], n.loops[l];
    && (forall t | t in L.queue && t.Install? && t.id != k :: t in M.queue)
    && (L.pc.Constructed? && L.pc.id != k ==> M.pc == L.pc)
    && (L.pc.Activated? && L.pc.id != k ==> M.pc == L.pc)
    && (L.pc.Handling? && L.pc.id != k ==> M.pc == L.pc)
    && (forall fd | fd in Table(s, l) && Table(s, l)[fd] != k ::
          fd in Table(n, l) && Table(n, l)[fd] == Table(s, l)[fd])
  }

  /** A step of loop l that changes at most connection k, which stays open. */
  ghost predicate Moves(s: Server, n: Server, l: nat, k: Id) {
    && Sizes(s) && Sizes(n) && l < |s.loops| == |n.loops|
    && n.fdOf == s.fdOf && n.open == s.open && n.extra == s.extra
    && s.home <= n.home
    && |n.life| == |s.life|
    && (forall j: Id | j < |s.life| && j != k :: n.life[j] == s.life[j])
    && (k < |s.life| && s.life[k] != n.life[k] ==>
          s.life[k] != Closed && n.life[k] != Closed && k < |n.home| && n.home[k] == l)
    && (|s.home| < |n.home| ==> |n.home| == |s.home| + 1 && k == |s.home| && n.home[k] == l)
    && (forall o: nat | o < |s.loops| && o != l :: SameLoop(s, n, o))
    && KeepsPlaces(s, n, l, k)
  }

  lemma MoveLife(s: Server, n: Server, l: nat, k: Id, j: Id)
    requires Inv(s) && Moves(s, n, l, k) && j < |n.life| && j != k
    ensures LifeOk(n, j) && DetachedOk(n, j)
  {
    assert LifeOk(s, j) && DetachedOk(s, j);
    if j < |s.home| && s.home[j] != l {
      assert SameLoop(s, n, s.home[j]);
    }
  }

  lemma MoveOpen(s: Server, n: Server, l: nat, k: Id)
    requires Inv(s) && Moves(s, n, l, k)
    requires k in s.extra ==> k < |n.life| && (n.life[k] == Building || n.life[k] == Mapped || n.life[k] == Detached)
    ensures OpenOk(n) && ExtraOk(n)
  {
  }

  /** What is left to check of such a step: loop l itself, and the connection it moved. */
  lemma MoveInv(s: Server, n: Server, l: nat, k: Id, x: Option<Id>)
    requires Inv(s) && Moves(s, n, l, k) && LoopOk(n, l)
    requires k < |n.life| ==> LifeOk(n, k) && (x != Some(k) ==> DetachedOk(n, k))
    requires k in s.extra ==> k < |n.life| && (n.life[k] == Building || n.life[k] == Mapped || n.life[k] == Detached)
    ensures InvBut(n, x)
  {
    MoveOpen(s, n, l, k);
    forall j: Id | j < |n.life|
      ensures LifeOk(n, j) && (x != Some(j) ==> DetachedOk(n, j))
    {
      if j != k {
        MoveLife(s, n, l, k, j);
      }
    }
    forall o: nat | o < |s.loops|
      ensures LoopOk(n, o)
    {
      if o != l {
        MoveElsewhere(s, n, l, k, o);
      }
    }
  }

  lemma MoveElsewhere(s: Server, n: Server, l: nat, k: Id, o: nat)
    requires Inv(s) && Moves(s, n, l, k) && o < |s.loops| && o != l
    ensures LoopOk(n, o)
  {
    assert SameLoop(s, n, o);
    forall j: Id | j < |s.home| && s.home[j] == o
      ensures SameLife(s, n, o, j)
    {
      assert n.home[j] == o;
    }
    assert Untouched(s, n, o);
    FrameLoop(s, n, o);
  }

  /** A step that changes loop l's own fields only: no table, no log, no connection's life. */
  ghost predicate Local(s: Server, n: Server, l: nat) {
    && l < |s.loops| == |n.loops| && n.loops == s.loops[l := n.loops[l]]
    && n.connectionMap == s.connectionMap && n.next == s.next && n.accepting == s.accepting
    && n.open == s.open && n.extra == s.extra && n.fdOf == s.fdOf && n.home == s.home && n.life == s.life
    && n.loops[l].log == s.loops[l].log
    && (forall t | t in s.loops[l].queue && t.Install? :: t in n.loops[l].queue)
    && (n.loops[l].pc == s.loops[l].pc || s.loops[l].pc == Ready)
  }

  lemma LocalMoves(s: Server, n: Server, l: nat)
    requires Sizes(s) && Local(s, n, l)
    ensures Sizes(n) && Moves(s, n, l, |s.life|)
  {
  }

  /** What is left to check of such a step. */
  lemma LocalInv(s: Server, n: Server, l: nat)
    requires Inv(s) && Local(s, n, l) && Sizes(n)
    requires RegFollows(n, l) && PcOk(n, l) && RemovingOk(n, l) && QueueOk(n, l) && ActiveOk(n, l) && LogOk(n, l)
    ensures Inv(n)
  {
    assert LoopOk(s, l);
    KeepTable(s, n, l);
    KeepRemovals(s, n, l);
    LocalMoves(s, n, l);
    MoveInv(s, n, l, |s.life|, None);
  }

  // --- Accept and hand over -------------------------------------------------------------------

  lemma AcceptLives(s: Server, fd: Fd)
    requires Inv(s) && Enabled(s, Accept(fd))
    ensures var n := Next(s, Accept(fd));
            && Sizes(n) && OpenOk(n)
            && forall k: Id | k < |n.life| :: LifeOk(n, k) && DetachedOk(n, k)
  {
    var n := Next(s, Accept(fd));
    forall k: Id | k < |n.life|
      ensures LifeOk(n, k) && DetachedOk(n, k)
    {
      if k < |s.life| {
        assert LifeOk(s, k) && DetachedOk(s, k);
      }
    }
    forall j, k | 0 <= j < k < |n.fdOf| && n.fdOf[j] == n.fdOf[k]
      ensures n.life[j] == Closed
    {
      assert LifeOk(s, j);
    }
  }

  lemma AcceptInv(s: Server, fd: Fd)
    requires Inv(s) && Enabled(s, Accept(fd))
    ensures Inv(Next(s, Accept(fd)))
  {
    var n := Next(s, Accept(fd));
    AcceptLives(s, fd);
    forall o: nat | o < |s.loops|
      ensures LoopOk(n, o)
    {
      FrameLoop(s, n, o);
    }
  }

  lemma AppendTask(s: Server, n: Server, l: nat, t: Task)
    requires Inv(s) && Sizes(n) && l < |s.loops| == |n.loops|
    requires n.loops[l].queue == s.loops[l].queue + [t] && n.fdOf == s.fdOf && s.home <= n.home
    requires forall j: Id | j < |s.home| :: n.life[j] == s.life[j]
    requires |n.home| > |s.home| ==>
             |n.home| == |s.home| + 1 && t == Install(|s.home|, s.fdOf[|s.home|]) && n.life[|s.home|] == Queued
    requires TaskOk(n, l, |s.loops[l].queue|)
    requires t.Install? ==> t.id == |s.home|
    ensures QueueOk(n, l)
  {
    assert LoopOk(s, l);
    forall i: nat | i < |s.loops[l].queue|
      ensures TaskOk(n, l, i)
    {
      AppendKeepsTask(s, n, l, t, i);
    }
    forall i, j | 0 <= i < j < |n.loops[l].queue| && n.loops[l].queue[i].Install? && n.loops[l].queue[j].Install?
      ensures n.loops[l].queue[i].id < n.loops[l].queue[j].id
    {
      assert TaskOk(s, l, i);
    }
  }

  lemma AppendKeepsTask(s: Server, n: Server, l: nat, t: Task, i: nat)
    requires Sizes(s) && Sizes(n) && l < |s.loops| == |n.loops| && QueueOk(s, l)
    requires n.loops[l].queue == s.loops[l].queue + [t] && n.fdOf == s.fdOf && s.home <= n.home
    requires forall j: Id | j < |s.home| :: n.life[j] == s.life[j]
    requires |n.home| > |s.home| ==> |n.home| == |s.home| + 1 && n.life[|s.home|] == Queued
    requires i < |s.loops[l].queue|
    ensures TaskOk(n, l, i)
  {
    assert TaskOk(s, l, i);
    var task := s.loops[l].queue[i];
    if task.Close? {
      forall later: Id | task.id < later < |n.fdOf| && n.fdOf[later] == n.fdOf[task.id]
        ensures Behind(n, l, i, later)
      {
        assert Behind(s, l, i, later);
        forall j | 0 <= j <= i
          ensures later == |s.home| ==> n.loops[l].queue[j] != Install(later, n.fdOf[later])
        {
          assert TaskOk(s, l, j);
        }
      }
    }
  }

  lemma HandOverMoves(s: Server)
    requires Sizes(s) && Enabled(s, HandOver)
    requires s.life[s.accepting.value] == Accepted
    ensures Sizes(Next(s, HandOver)) && Moves(s, Next(s, HandOver), s.next, s.accepting.value)
  {
    var n := Next(s, HandOver);
    Modulo.Successor(|s.home|, |s.loops|);
    assert forall k: Id | k < |n.home| :: n.home[k] == (if k < |s.home| then s.home[k] else s.next);
  }

  lemma HandOverLoop(s: Server)
    requires Inv(s) && Enabled(s, HandOver) && Sizes(Next(s, HandOver))
    ensures LoopOk(Next(s, HandOver), s.next)
  {
    var n := Next(s, HandOver);
    var k, l := s.accepting.value, s.next;
    assert LoopOk(s, l);
    AppendTask(s, n, l, Install(k, s.fdOf[k]));
    QueueAppend(s.loops[l].queue, Install(k, s.fdOf[k]));
    SameTable(s, n, l);
    KeepRemovals(s, n, l);
  }

  /** The table is as it was and its connections are still mapped. */
  lemma KeepTable(s: Server, n: Server, l: nat)
    requires Sizes(s) && Sizes(n) && TableOk(s, l) && Table(n, l) == Table(s, l)
    requires n.fdOf == s.fdOf && s.home <= n.home
    requires forall k: Id | k < |s.home| && s.life[k] == Mapped :: n.life[k] == Mapped
    ensures TableOk(n, l)
  {
  }

  /** The log is as it was and no connection of the loop was erased. */
  lemma KeepRemovals(s: Server, n: Server, l: nat)
    requires Sizes(s) && Sizes(n) && l < |s.loops| == |n.loops| && RemovalsOk(s, l)
    requires n.loops[l].log == s.loops[l].log && n.fdOf == s.fdOf && s.home <= n.home
    requires forall k: Id | k < |n.home| :: Erased(n.life[k]) <==> k < |s.home| && Erased(s.life[k])
    ensures RemovalsOk(n, l)
  {
    forall e | e in n.loops[l].log && e.Rem?
      ensures HomedOn(n, l, e.request, e.fd) && Erased(n.life[e.request])
    {
      assert HomedOn(s, l, e.request, e.fd);
    }
  }

  lemma SameTable(s: Server, n: Server, l: nat)
    requires Sizes(s) && Sizes(n) && l < |s.loops| == |n.loops|
    requires Table(n, l) == Table(s, l) && n.loops[l] == s.loops[l].(queue := n.loops[l].queue)
    requires n.fdOf == s.fdOf && s.home <= n.home
    requires forall j: Id | j < |s.home| :: n.life[j] == s.life[j]
    requires RegFollows(s, l) && PcOk(s, l) && RemovingOk(s, l) && TableOk(s, l) && ActiveOk(s, l)
    ensures RegFollows(n, l) && PcOk(n, l) && RemovingOk(n, l) && TableOk(n, l) && ActiveOk(n, l)
  {
    KeepTable(s, n, l);
  }

  /** What newConnectioninLoop changes, field by field. */
  lemma HandOverFields(s: Server)
    requires Enabled(s, HandOver)
    ensures var k, l, n := s.accepting.value, s.next, Next(s, HandOver);
            n == s.(next := ThreadPool.Advance(l, |s.loops|), accepting := None, home := s.home + [l],
                    life := s.life[k := Queued],
                    loops := s.loops[l := s.loops[l].(queue := s.loops[l].queue + [Install(k, s.fdOf[k])])])
  {
  }

  lemma HandOverInv(s: Server)
    requires Inv(s) && Enabled(s, HandOver)
    ensures Inv(Next(s, HandOver))
  {
    var n := Next(s, HandOver);
    var k := s.accepting.value;
    assert LifeOk(s, k);
    HandOverMoves(s);
    HandOverLoop(s);
    assert s.loops[s.next].queue + [Install(k, s.fdOf[k])] == n.loops[s.next].queue;
    MoveInv(s, n, s.next, k, None);
  }

  // --- Installing -----------------------------------------------------------------------------

  lemma PopQueue(s: Server, n: Server, l: nat)
    requires Sizes(s) && Sizes(n) && l < |s.loops| == |n.loops| && QueueOk(s, l) && s.loops[l].queue != []
    requires n.loops[l].queue == s.loops[l].queue[1..] && n.fdOf == s.fdOf && n.home == s.home
    requires if s.loops[l].queue[0].Install?
             then s.loops[l].queue[0].id < |s.life| && n.life == s.life[s.loops[l].queue[0].id := Building]
             else n.life == s.life
    ensures QueueOk(n, l)
  {
    var q := s.loops[l].queue;
    assert TaskOk(s, l, 0);
    forall i: nat | i + 1 < |q|
      ensures TaskOk(n, l, i)
    {
      assert TaskOk(s, l, i + 1);
      if q[i + 1].Close? {
        forall later: Id | q[i + 1].id < later < |n.fdOf| && n.fdOf[later] == n.fdOf[q[i + 1].id]
          ensures Behind(n, l, i, later)
        {
          assert Behind(s, l, i + 1, later);
          assert 0 <= i + 1 && later < |s.home| && s.home[later] == l ==> q[0] != Install(later, s.fdOf[later]);
        }
      }
    }
  }

  lemma BeginInstallLoop(s: Server, l: nat)
    requires Inv(s) && Enabled(s, BeginInstall(l))
    ensures Sizes(Next(s, BeginInstall(l))) && LoopOk(Next(s, BeginInstall(l)), l)
  {
    var n := Next(s, BeginInstall(l));
    assert LoopOk(s, l) && TaskOk(s, l, 0);
    PopQueue(s, n, l);
    BeginInstallOwn(s, l);
    KeepTable(s, n, l);
    KeepRemovals(s, n, l);
  }

  lemma BeginInstallOwn(s: Server, l: nat)
    requires Sizes(s) && Enabled(s, BeginInstall(l)) && TaskOk(s, l, 0)
    requires RegFollows(s, l) && ActiveOk(s, l) && LogOk(s, l)
    ensures var n := Next(s, BeginInstall(l));
            Sizes(n) && RegFollows(n, l) && PcOk(n, l) && RemovingOk(n, l) && ActiveOk(n, l) && LogOk(n, l)
  {
    QueuePop(s.loops[l].queue);
  }

  lemma BeginInstallMoves(s: Server, l: nat)
    requires Sizes(s) && Enabled(s, BeginInstall(l)) && TaskOk(s, l, 0)
    ensures Sizes(Next(s, BeginInstall(l)))
    ensures Moves(s, Next(s, BeginInstall(l)), l, s.loops[l].queue[0].id)
  {
  }

  lemma BeginInstallInv(s: Server, l: nat)
    requires Inv(s) && Enabled(s, BeginInstall(l))
    ensures Inv(Next(s, BeginInstall(l)))
  {
    var n := Next(s, BeginInstall(l));
    var k := s.loops[l].queue[0].id;
    assert LoopOk(s, l) && TaskOk(s, l, 0);
    assert LifeOk(s, k);
    BeginInstallLoop(s, l);
    BeginInstallMoves(s, l);
    MoveInv(s, n, l, k, None);
  }

  /** A number that a live, unmapped connection uses is in no table of its loop. */
  lemma NotInTable(s: Server, l: nat, k: Id)
    requires Inv(s) && l < |s.loops| && k < |s.life| && s.life[k] != Closed && s.life[k] != Mapped
    ensures s.fdOf[k] !in Table(s, l)
  {
    assert LoopOk(s, l);
    assert LifeOk(s, k);
  }

  lemma ActivateLoop(s: Server, l: nat)
    requires Inv(s) && Enabled(s, Activate(l))
    ensures Sizes(Next(s, Activate(l))) && LoopOk(Next(s, Activate(l)), l)
  {
    var n := Next(s, Activate(l));
    assert LoopOk(s, l);
    NotInTable(s, l, s.loops[l].pc.id);
    SameQueue(s, n, l);
    KeepTable(s, n, l);
    KeepRemovals(s, n, l);
  }

  lemma ActivateMoves(s: Server, l: nat)
    requires Sizes(s) && Enabled(s, Activate(l))
    ensures Sizes(Next(s, Activate(l))) && Moves(s, Next(s, Activate(l)), l, s.loops[l].pc.id)
  {
  }

  /** The queue is as it was and no queued connection changed its life. */
  lemma SameQueue(s: Server, n: Server, l: nat)
    requires Sizes(s) && Sizes(n) && l < |s.loops| == |n.loops| && QueueOk(s, l)
    requires n.loops[l].queue == s.loops[l].queue && n.fdOf == s.fdOf && n.home == s.home
    requires forall k: Id | k < |s.life| ::
               (s.life[k] == Queued <==> n.life[k] == Queued) && (s.life[k] == Accepted <==> n.life[k] == Accepted)
    ensures QueueOk(n, l)
  {
    forall i: nat | i < |n.loops[l].queue|
      ensures TaskOk(n, l, i)
    {
      assert TaskOk(s, l, i);
      var t := s.loops[l].queue[i];
      if t.Close? {
        forall later: Id | t.id < later < |n.fdOf| && n.fdOf[later] == n.fdOf[t.id]
          ensures Behind(n, l, i, later)
        {
          assert Behind(s, l, i, later);
        }
      }
    }
  }

  lemma ActivateInv(s: Server, l: nat)
    requires Inv(s) && Enabled(s, Activate(l))
    ensures Inv(Next(s, Activate(l)))
  {
    var n := Next(s, Activate(l));
    var k := s.loops[l].pc.id;
    assert LoopOk(s, l);
    assert LifeOk(s, k) && DetachedOk(s, k);
    ActivateLoop(s, l);
    ActivateMoves(s, l);
    MoveInv(s, n, l, k, None);
  }

  lemma InsertTable(s: Server, l: nat)
    requires Sizes(s) && Enabled(s, Insert(l)) && RegFollows(s, l) && PcOk(s, l) && TableOk(s, l)
    ensures Sizes(Next(s, Insert(l))) && TableOk(Next(s, Insert(l)), l)
  {
    var n := Next(s, Insert(l));
    var k := s.loops[l].pc.id;
    forall fd | fd in Table(n, l)
      ensures HomedOn(n, l, Table(n, l)[fd], fd) && n.life[Table(n, l)[fd]] == Mapped
    {
      assert fd != s.fdOf[k] ==> HomedOn(s, l, Table(s, l)[fd], fd);
    }
  }

  lemma InsertLog(s: Server, l: nat)
    requires Sizes(s) && Enabled(s, Insert(l)) && RegFollows(s, l) && PcOk(s, l) && LogOk(s, l)
    ensures Sizes(Next(s, Insert(l))) && LogOk(Next(s, Insert(l)), l)
  {
    var k := s.loops[l].pc.id;
    var e := Ins(k, s.fdOf[k]);
    InsertedInOrder(s.loops[l].log, e, s.loops[l].queue);
    var n := Next(s, Insert(l));
    assert n.loops[l].log == s.loops[l].log + [e] && n.loops[l].queue == s.loops[l].queue;
    assert Table(n, l) == FoldOne(Table(s, l), e);
  }

  lemma InsertedInOrder(log: seq<Event>, e: Event, queue: seq<Task>)
    requires e.Ins?
    ensures Fold(log + [e]) == FoldOne(Fold(log), e)
    ensures InstallsOf(log + [e]) + BuildingIds(Inserted(e.id)) + QueuedIds(queue)
            == InstallsOf(log) + BuildingIds(Activated(e.id)) + QueuedIds(queue)
  {
    LogAppend(log, e);
    assert InstallsOf(log) + [e.id] + [] == InstallsOf(log) + [e.id];
  }

  lemma InsertRemovals(s: Server, l: nat)
    requires Sizes(s) && Enabled(s, Insert(l)) && PcOk(s, l) && RemovalsOk(s, l)
    ensures Sizes(Next(s, Insert(l))) && RemovalsOk(Next(s, Insert(l)), l)
  {
    var n := Next(s, Insert(l));
    forall e | e in n.loops[l].log && e.Rem?
      ensures HomedOn(n, l, e.request, e.fd) && Erased(n.life[e.request])
    {
      assert HomedOn(s, l, e.request, e.fd);
    }
  }

  lemma InsertOwn(s: Server, l: nat)
    requires Sizes(s) && Enabled(s, Insert(l)) && RegFollows(s, l) && PcOk(s, l) && ActiveOk(s, l)
    ensures var n := Next(s, Insert(l));
            Sizes(n) && RegFollows(n, l) && PcOk(n, l) && RemovingOk(n, l) && ActiveOk(n, l)
  {
  }

  lemma InsertLoop(s: Server, l: nat)
    requires Inv(s) && Enabled(s, Insert(l))
    ensures LoopOk(Next(s, Insert(l)), l)
  {
    assert LoopOk(s, l);
    InsertTable(s, l);
    InsertLog(s, l);
    InsertRemovals(s, l);
    InsertOwn(s, l);
    SameQueue(s, Next(s, Insert(l)), l);
  }

  lemma InsertMoves(s: Server, l: nat)
    requires Sizes(s) && Enabled(s, Insert(l)) && PcOk(s, l) && RegFollows(s, l)
    ensures Sizes(Next(s, Insert(l))) && Moves(s, Next(s, Insert(l)), l, s.loops[l].pc.id)
  {
  }

  lemma InsertInv(s: Server, l: nat)
    requires Inv(s) && Enabled(s, Insert(l))
    ensures Inv(Next(s, Insert(l)))
  {
    var n := Next(s, Insert(l));
    var k := s.loops[l].pc.id;
    assert LoopOk(s, l);
    assert LifeOk(s, k);
    InsertLoop(s, l);
    InsertMoves(s, l);
    MoveInv(s, n, l, k, None);
  }

  // --- Pointers that go -----------------------------------------------------------------------

  /** The loop returns to its callbacks from EndInstall or EndHandle. */
  lemma ReadyLoop(s: Server, l: nat)
    requires Inv(s) && l < |s.loops|
    requires s.loops[l].removing == None && (s.loops[l].pc.Inserted? || s.loops[l].pc.Handling?)
    ensures LoopOk(SetPc(s, l, Ready), l)
  {
    var n := SetPc(s, l, Ready);
    assert LoopOk(s, l);
    SameQueue(s, n, l);
    KeepTable(s, n, l);
    KeepRemovals(s, n, l);
  }

  lemma ReadyMoves(s: Server, l: nat)
    requires Sizes(s) && l < |s.loops| && s.loops[l].removing == None
    requires s.loops[l].pc.Inserted? || s.loops[l].pc.Handling?
    ensures Sizes(SetPc(s, l, Ready)) && Moves(s, SetPc(s, l, Ready), l, s.loops[l].pc.id)
  {
  }

  /** Back between callbacks, the pointer that newConnnection or handleEvent held not yet released. */
  lemma ReadyBut(s: Server, l: nat)
    requires Inv(s) && l < |s.loops|
    requires s.loops[l].removing == None && (s.loops[l].pc.Inserted? || s.loops[l].pc.Handling?)
    ensures var k := s.loops[l].pc.id;
            && InvBut(SetPc(s, l, Ready), Some(k)) && k < |s.home|
            && (s.life[k] == Mapped || s.life[k] == Detached)
  {
    var k := s.loops[l].pc.id;
    assert LoopOk(s, l);
    assert LifeOk(s, k);
    ReadyLoop(s, l);
    ReadyMoves(s, l);
    MoveInv(s, SetPc(s, l, Ready), l, k, Some(k));
  }

  lemma ReadyInv(s: Server, l: nat)
    requires Inv(s) && l < |s.loops|
    requires s.loops[l].removing == None && (s.loops[l].pc.Inserted? || s.loops[l].pc.Handling?)
    ensures Inv(Released(SetPc(s, l, Ready), s.loops[l].pc.id))
  {
    ReadyBut(s, l);
    ReleasedInv(SetPc(s, l, Ready), s.loops[l].pc.id);
  }

  /** Pointers held elsewhere are no loop's business. */
  lemma ExtraLoops(s: Server, extra: multiset<Id>)
    requires Inv(s)
    ensures var n := s.(extra := extra);
            Sizes(n) && forall o: nat | o < |n.loops| :: LoopOk(n, o)
  {
    var n := s.(extra := extra);
    forall o: nat | o < |s.loops|
      ensures LoopOk(n, o)
    {
      FrameLoop(s, n, o);
    }
  }

  lemma DropPointerBut(s: Server, k: Id)
    requires Inv(s) && Enabled(s, DropPointer(k))
    ensures InvBut(s.(extra := s.extra - multiset{k}), Some(k))
  {
    var n := s.(extra := s.extra - multiset{k});
    ExtraLoops(s, n.extra);
    forall j: Id | j < |n.life|
      ensures LifeOk(n, j) && (j != k ==> DetachedOk(n, j))
    {
      assert LifeOk(s, j) && DetachedOk(s, j);
    }
  }

  lemma DropPointerInv(s: Server, k: Id)
    requires Inv(s) && Enabled(s, DropPointer(k))
    ensures Inv(Next(s, DropPointer(k)))
  {
    DropPointerBut(s, k);
    ReleasedInv(s.(extra := s.extra - multiset{k}), k);
  }

  lemma CopyPointerInv(s: Server, k: Id)
    requires Inv(s) && Enabled(s, CopyPointer(k))
    ensures Inv(Next(s, CopyPointer(k)))
  {
    HeldLife(s, k);
    var n := Next(s, CopyPointer(k));
    ExtraLoops(s, n.extra);
    forall j: Id | j < |n.life|
      ensures LifeOk(n, j) && DetachedOk(n, j)
    {
      assert LifeOk(s, j) && DetachedOk(s, j);
    }
  }

  // --- Dispatching ----------------------------------------------------------------------------

  lemma PollInv(s: Server, l: nat, ready: seq<Id>)
    requires Inv(s) && Enabled(s, Poll(l, ready))
    ensures Inv(Next(s, Poll(l, ready)))
  {
    var n := Next(s, Poll(l, ready));
    assert LoopOk(s, l);
    PollReports(s, l, ready);
    SameQueue(s, n, l);
    LocalInv(s, n, l);
  }

  /** What a poller reports are connections in its loop's table. */
  lemma PollReports(s: Server, l: nat, ready: seq<Id>)
    requires Sizes(s) && Enabled(s, Poll(l, ready)) && RegFollows(s, l) && TableOk(s, l)
    ensures forall k | k in ready :: k < |s.home| && s.home[k] == l && s.life[k] == Mapped
  {
    forall k | k in ready
      ensures k < |s.home| && s.home[k] == l && s.life[k] == Mapped
    {
      assert HomedOn(s, l, Table(s, l)[s.fdOf[k]], s.fdOf[k]);
    }
  }

  lemma HeldIffNotClosed(s: Server, k: Id)
    requires Inv(s) && k < |s.home| && WasMapped(s.life[k])
    ensures Held(s, k) <==> s.life[k] != Closed
  {
    assert LifeOk(s, k) && DetachedOk(s, k);
    assert 0 <= s.home[k] < |s.loops|;
    if Held(s, k) {
      HeldLife(s, k);
    } else {
      assert !HeldOn(s, s.home[k], k);
    }
  }

  /** A pointer in ActivityChannel is alive unless its connection was erased and released meanwhile. */
  lemma ActiveIsHeld(s: Server, l: nat, k: Id)
    requires Inv(s) && l < |s.loops| && k in s.loops[l].active
    ensures k < |s.home| && s.home[k] == l && WasMapped(s.life[k])
    ensures Held(s, k) <==> s.life[k] != Closed
  {
    assert LoopOk(s, l);
    HeldIffNotClosed(s, k);
  }

  lemma BeginHandleInv(s: Server, l: nat)
    requires Inv(s) && Enabled(s, BeginHandle(l))
    ensures s.loops[l].active[0] < |s.life| && Inv(Next(s, BeginHandle(l)))
    ensures Next(s, BeginHandle(l)).crashed <==> s.life[s.loops[l].active[0]] == Closed
  {
    var k := s.loops[l].active[0];
    ActiveIsHeld(s, l, k);
    if Held(s, k) {
      var n := Next(s, BeginHandle(l));
      assert LoopOk(s, l);
      SameQueue(s, n, l);
      LocalInv(s, n, l);
    } else {
      CrashInv(s);
    }
  }

  // --- Closing --------------------------------------------------------------------------------

  /** A channel is found for a live connection's number exactly while it is mapped, and it is its own. */
  lemma RegisteredIffMapped(s: Server, l: nat, k: Id)
    requires Inv(s) && l < |s.loops| && k < |s.home| && s.home[k] == l && s.life[k] != Closed
    requires s.loops[l].reg == Table(s, l)
    ensures s.fdOf[k] in s.loops[l].reg <==> s.life[k] == Mapped
    ensures s.life[k] == Mapped ==> s.loops[l].reg[s.fdOf[k]] == k
  {
    assert LifeOk(s, k);
    if s.life[k] != Mapped {
      NotInTable(s, l, k);
    }
  }

  lemma PopClose(s: Server, l: nat)
    requires Inv(s) && l < |s.loops| && s.loops[l].queue != [] && s.loops[l].queue[0].Close?
    ensures Inv(Pop(s, l))
  {
    var n := Pop(s, l);
    assert LoopOk(s, l);
    PopQueue(s, n, l);
    QueuePop(s.loops[l].queue);
    LocalInv(s, n, l);
  }

  /** A queued close finds its own connection or none: no later one with the same number has been
      installed on this loop yet. */
  lemma QueuedCloseIsOwn(s: Server, l: nat)
    requires Inv(s) && l < |s.loops| && s.loops[l].queue != [] && s.loops[l].queue[0].Close?
    requires s.loops[l].pc == Ready && s.loops[l].removing == None
    ensures var k, fd := s.loops[l].queue[0].id, s.loops[l].queue[0].fd;
            && HomedOn(s, l, k, fd)
            && (fd in s.loops[l].reg <==> s.life[k] == Mapped)
            && (fd in s.loops[l].reg ==> s.loops[l].reg[fd] == k)
  {
    var k, fd := s.loops[l].queue[0].id, s.loops[l].queue[0].fd;
    assert LoopOk(s, l) && TaskOk(s, l, 0);
    assert LifeOk(s, k);
    if fd in Table(s, l) {
      var j := Table(s, l)[fd];
      assert HomedOn(s, l, j, fd);
      assert j > k ==> Behind(s, l, 0, j);
    }
  }

  lemma BeginCloseInv(s: Server, l: nat)
    requires Inv(s) && Enabled(s, BeginClose(l))
    ensures Inv(Next(s, BeginClose(l)))
  {
    QueuedCloseIsOwn(s, l);
    PopClose(s, l);
    OwnRemovalInv(Pop(s, l), l, s.loops[l].queue[0].id);
  }

  /** removeConnection for connection k starts on its loop, from user code of any kind. */
  lemma OwnRemovalInv(s: Server, l: nat, k: Id)
    requires Inv(s) && UserCode(s, l) && k < |s.home| && s.home[k] == l
    requires s.fdOf[k] in s.loops[l].reg <==> s.life[k] == Mapped
    ensures Inv(RemoveChannel(s, l, k, s.fdOf[k]))
  {
    assert LoopOk(s, l);
    if s.life[k] == Mapped {
      var n := RemoveChannel(s, l, k, s.fdOf[k]);
      OwnRemovalLoop(s, l, k);
      SameQueue(s, n, l);
      LocalInv(s, n, l);
    } else {
      CrashInv(s);
    }
  }

  lemma OwnRemovalLoop(s: Server, l: nat, k: Id)
    requires Sizes(s) && UserCode(s, l) && k < |s.home| && s.home[k] == l && s.life[k] == Mapped
    requires s.fdOf[k] in s.loops[l].reg && RegFollows(s, l) && PcOk(s, l) && ActiveOk(s, l) && LogOk(s, l)
    ensures var n := RemoveChannel(s, l, k, s.fdOf[k]);
            && Sizes(n) && Local(s, n, l)
            && RegFollows(n, l) && PcOk(n, l) && RemovingOk(n, l) && ActiveOk(n, l) && LogOk(n, l)
  {
  }

  // --- Erasing --------------------------------------------------------------------------------

  predicate RemovalPending(s: Server, l: nat, k: Id) {
    l < |s.loops| && k < |s.fdOf| && s.loops[l].removing == Some(Removal(k, s.fdOf[k]))
  }

  /** What erase does before any pointer count is looked at. */
  function Erasing(s: Server, l: nat, k: Id): Server
    requires RemovalPending(s, l, k) && k < |s.life|
  {
    s.(connectionMap := s.connectionMap[l := Table(s, l) - {s.fdOf[k]}],
       loops := s.loops[l := s.loops[l].(removing := None, log := s.loops[l].log + [Rem(k, Some(k), s.fdOf[k])])],
       life := s.life[k := Detached])
  }

  lemma EraseIsErasing(s: Server, l: nat)
    requires Inv(s) && Enabled(s, FinishRemoval(l))
    ensures var k := s.loops[l].removing.value.id;
            && RemovalPending(s, l, k) && k < |s.home| && s.home[k] == l && s.life[k] == Mapped
            && s.fdOf[k] in Table(s, l) && Table(s, l)[s.fdOf[k]] == k
            && Next(s, FinishRemoval(l)) == Released(Erasing(s, l, k), k)
  {
    assert LoopOk(s, l);
    var k := s.loops[l].removing.value.id;
    assert LifeOk(s, k);
  }

  lemma ErasingTable(s: Server, l: nat, k: Id)
    requires Sizes(s) && l < |s.loops| && TableOk(s, l) && LogOk(s, l)
    requires RemovalPending(s, l, k) && k < |s.home| && s.home[k] == l && s.life[k] == Mapped
    ensures Sizes(Erasing(s, l, k)) && TableOk(Erasing(s, l, k), l) && LogOk(Erasing(s, l, k), l)
  {
    var n := Erasing(s, l, k);
    LogAppend(s.loops[l].log, Rem(k, Some(k), s.fdOf[k]));
    forall fd | fd in Table(n, l)
      ensures HomedOn(n, l, Table(n, l)[fd], fd) && n.life[Table(n, l)[fd]] == Mapped
    {
      assert HomedOn(s, l, Table(s, l)[fd], fd);
    }
  }

  lemma ErasingRemovals(s: Server, l: nat, k: Id)
    requires Sizes(s) && RemovalPending(s, l, k) && k < |s.home| && s.home[k] == l && RemovalsOk(s, l)
    ensures Sizes(Erasing(s, l, k)) && RemovalsOk(Erasing(s, l, k), l)
  {
    var n := Erasing(s, l, k);
    var e0 := Rem(k, Some(k), s.fdOf[k]);
    assert n.loops[l].log == s.loops[l].log + [e0];
    forall e | e in n.loops[l].log && e.Rem?
      ensures e.victim == Some(e.request) && HomedOn(n, l, e.request, e.fd) && Erased(n.life[e.request])
    {
      assert e == e0 || (e in s.loops[l].log && HomedOn(s, l, e.request, e.fd));
    }
  }

  lemma ErasingOwn(s: Server, l: nat, k: Id)
    requires Sizes(s) && RemovalPending(s, l, k) && k < |s.home| && s.home[k] == l && s.life[k] == Mapped
    requires RegFollows(s, l) && PcOk(s, l) && RemovingOk(s, l) && ActiveOk(s, l)
    ensures var n := Erasing(s, l, k);
            Sizes(n) && RegFollows(n, l) && PcOk(n, l) && RemovingOk(n, l) && ActiveOk(n, l)
  {
  }

  lemma ErasingLoop(s: Server, l: nat, k: Id)
    requires Inv(s) && RemovalPending(s, l, k) && k < |s.home| && s.home[k] == l && s.life[k] == Mapped
    ensures Sizes(Erasing(s, l, k)) && LoopOk(Erasing(s, l, k), l)
  {
    assert LoopOk(s, l);
    ErasingTable(s, l, k);
    ErasingRemovals(s, l, k);
    ErasingOwn(s, l, k);
    SameQueue(s, Erasing(s, l, k), l);
  }

  lemma ErasingMoves(s: Server, l: nat, k: Id)
    requires Sizes(s) && RemovalPending(s, l, k) && k < |s.home| && s.home[k] == l && s.life[k] == Mapped
    requires s.fdOf[k] in Table(s, l) && Table(s, l)[s.fdOf[k]] == k
    ensures Sizes(Erasing(s, l, k)) && Moves(s, Erasing(s, l, k), l, k)
  {
  }

  lemma ErasedInv(s: Server, l: nat, k: Id)
    requires Inv(s) && RemovalPending(s, l, k) && k < |s.home| && s.home[k] == l && s.life[k] == Mapped
    requires s.fdOf[k] in Table(s, l) && Table(s, l)[s.fdOf[k]] == k
    ensures InvBut(Erasing(s, l, k), Some(k))
  {
    var n := Erasing(s, l, k);
    assert LifeOk(s, k);
    ErasingLoop(s, l, k);
    ErasingMoves(s, l, k);
    MoveInv(s, n, l, k, Some(k));
  }

  lemma FinishRemovalInv(s: Server, l: nat)
    requires Inv(s) && Enabled(s, FinishRemoval(l))
    ensures Inv(Next(s, FinishRemoval(l)))
  {
    EraseIsErasing(s, l);
    var k := s.loops[l].removing.value.id;
    ErasedInv(s, l, k);
    ReleasedInv(Erasing(s, l, k), k);
  }

  // --- Close requests -------------------------------------------------------------------------

  lemma EnqueueCloseInv(s: Server, k: Id)
    requires Inv(s) && Held(s, k) && k < |s.home| <= |s.fdOf| && s.home[k] < |s.loops|
    ensures Inv(Enqueue(s, s.home[k], Close(k, s.fdOf[k])))
  {
    var l, t := s.home[k], Close(k, s.fdOf[k]);
    var n := Enqueue(s, l, t);
    HeldLife(s, k);
    assert LoopOk(s, l);
    assert forall later: Id | k < later < |s.fdOf| :: s.fdOf[later] != s.fdOf[k];
    AppendTask(s, n, l, t);
    QueueAppend(s.loops[l].queue, t);
    LocalInv(s, n, l);
  }

  lemma RequestCloseInv(s: Server, from: Option<nat>, k: Id)
    requires Inv(s) && Enabled(s, RequestClose(from, k))
    ensures Inv(Next(s, RequestClose(from, k)))
  {
    if from == Some(s.home[k]) {
      HeldLife(s, k);
      assert LoopOk(s, s.home[k]);
      RegisteredIffMapped(s, s.home[k], k);
      OwnRemovalInv(s, s.home[k], k);
    } else {
      EnqueueCloseInv(s, k);
    }
  }

  // --- Every step -----------------------------------------------------------------------------

  lemma NextInv(s: Server, a: Action)
    requires Inv(s) && Enabled(s, a)
    ensures Inv(Next(s, a))
  {
    match a
    case Accept(fd) => AcceptInv(s, fd);
    case HandOver => HandOverInv(s);
    case BeginInstall(l) => BeginInstallInv(s, l);
    case Activate(l) => ActivateInv(s, l);
    case Insert(l) => InsertInv(s, l);
    case EndInstall(l) => ReadyInv(s, l);
    case Poll(l, ready) => PollInv(s, l, ready);
    case BeginHandle(l) => BeginHandleInv(s, l);
    case EndHandle(l) => ReadyInv(s, l);
    case BeginClose(l) => BeginCloseInv(s, l);
    case FinishRemoval(l) => FinishRemovalInv(s, l);
    case RequestClose(from, k) => RequestCloseInv(s, from, k);
    case CopyPointer(k) => CopyPointerInv(s, k);
    case DropPointer(k) => DropPointerInv(s, k);
  }

  lemma {:induction false} RunInv(s: Server, acts: seq<Action>)
    requires Inv(s) && CanRun(s, acts)
    ensures Inv(Run(s, acts))
    decreases |acts|
  {
    if acts != [] {
      NextInv(s, acts[0]);
      RunInv(Next(s, acts[0]), acts[1..]);
    }
  }
}
