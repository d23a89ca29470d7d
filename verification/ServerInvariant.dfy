/** What every step of the server keeps, whatever the interleaving of its threads. */
module ServerInvariant {
  import opened Options
  import opened Sequences
  import opened ServerModel

  // --- Histories ------------------------------------------------------------------------------

  function InstallsOf(log: seq<Event>): seq<Id> {
    if log == [] then []
    else
      var e := log[|log| - 1];
      InstallsOf(log[..|log| - 1]) + (if e.Ins? then [e.id] else [])
  }

  function QueuedIds(q: seq<Task>): seq<Id> {
    if q == [] then []
    else
      var t := q[|q| - 1];
      QueuedIds(q[..|q| - 1]) + (if t.Install? then [t.id] else [])
  }

  function BuildingIds(pc: LoopPc): seq<Id> {
    if pc.Constructed? || pc.Activated? then [pc.id] else []
  }

  /** Of the first m connections, those whose number is l modulo n, in order. */
  function Assigned(l: nat, n: nat, m: nat): seq<Id>
    requires n > 0
  {
    if m == 0 then [] else Assigned(l, n, m - 1) + (if (m - 1) % n == l then [m - 1] else [])
  }

  /** The table a log of installs and removals describes. */
  function Fold(log: seq<Event>): map<Fd, Id> {
    if log == [] then map[]
    else FoldOne(Fold(log[..|log| - 1]), log[|log| - 1])
  }

  function FoldOne(t: map<Fd, Id>, e: Event): map<Fd, Id> {
    match e
    case Ins(k, fd) => t[fd := k]
    case Rem(_, _, fd) => t - {fd}
  }

  lemma LogAppend(log: seq<Event>, e: Event)
    ensures InstallsOf(log + [e]) == InstallsOf(log) + (if e.Ins? then [e.id] else [])
    ensures Fold(log + [e]) == FoldOne(Fold(log), e)
  {
    assert (log + [e])[..|log|] == log;
  }

  lemma QueueAppend(q: seq<Task>, t: Task)
    ensures QueuedIds(q + [t]) == QueuedIds(q) + (if t.Install? then [t.id] else [])
  {
  }

  lemma {:induction false} QueuePop(q: seq<Task>)
    requires q != []
    ensures QueuedIds(q) == (if q[0].Install? then [q[0].id] else []) + QueuedIds(q[1..])
  {
    var k := |q| - 1;
    if k == 0 {
      assert q[..0] == [] && q[1..] == [];
    } else {
      var front, rest := q[..k], q[1..];
      QueuePop(front);
      assert front[0] == q[0] && front[1..] == rest[..k - 1] && rest[k - 1] == q[k];
      assert QueuedIds(rest) == QueuedIds(front[1..]) + (if q[k].Install? then [q[k].id] else []);
      Regroup(if q[0].Install? then [q[0].id] else [], QueuedIds(front[1..]),
              if q[k].Install? then [q[k].id] else []);
    }
  }

  // --- The invariant --------------------------------------------------------------------------

  /** Connection k was handed to loop l and uses number fd. */
  predicate HomedOn(s: Server, l: nat, k: Id, fd: Fd) {
    k < |s.home| <= |s.fdOf| == |s.life| && s.home[k] == l && s.fdOf[k] == fd
  }

  ghost predicate Sizes(s: Server) {
    && |s.loops| > 0
    && |s.home| <= |s.fdOf| == |s.life|
    && s.next == |s.home| % |s.loops|
    && (forall l: nat :: l in s.connectionMap <==> l < |s.loops|)
    && (match s.accepting
        case None => |s.home| == |s.life|
        case Some(k) => k == |s.home| && |s.life| == k + 1)
    && (forall k: Id | k < |s.home| :: s.home[k] == k % |s.loops|)
  }

  /** The poller of a loop knows exactly the connections in its table, except while one is between
      registration and insertion, or between removal and erasure. */
  ghost predicate RegFollows(s: Server, l: nat)
    requires l < |s.loops|
  {
    var L, t := s.loops[l], Table(s, l);
    && (L.removing.Some? ==> L.removing.value.fd in t && L.reg == t - {L.removing.value.fd})
    && (L.removing == None && !L.pc.Activated? ==> L.reg == t)
    && (L.pc.Activated? ==> L.pc.id < |s.fdOf| && s.fdOf[L.pc.id] !in t && L.reg == t[s.fdOf[L.pc.id] := L.pc.id])
  }

  ghost predicate PcOk(s: Server, l: nat)
    requires l < |s.loops| && |s.home| <= |s.fdOf| == |s.life|
  {
    match s.loops[l].pc
    case Ready => true
    case Constructed(k) => k < |s.home| && s.home[k] == l && s.life[k] == Building
    case Activated(k) => k < |s.home| && s.home[k] == l && s.life[k] == Building
    case Inserted(k) => k < |s.home| && s.home[k] == l && s.life[k] == Mapped
    case Handling(k) => k < |s.home| && s.home[k] == l && (s.life[k] == Mapped || s.life[k] == Detached)
  }

  /** A removal under way is of a connection in the table, and user code called for it. */
  ghost predicate RemovingOk(s: Server, l: nat)
    requires l < |s.loops| && |s.home| <= |s.fdOf| == |s.life|
  {
    var L := s.loops[l];
    L.removing.Some? ==>
      && HomedOn(s, l, L.removing.value.id, L.removing.value.fd) && s.life[L.removing.value.id] == Mapped
      && ((L.pc.Ready? && L.active == []) || L.pc.Constructed? || L.pc.Handling?)
  }

  ghost predicate TableOk(s: Server, l: nat)
    requires |s.home| <= |s.fdOf| == |s.life|
  {
    forall fd | fd in Table(s, l) :: HomedOn(s, l, Table(s, l)[fd], fd) && s.life[Table(s, l)[fd]] == Mapped
  }

  /** Connection `later` cannot be installed on loop l before task i. */
  ghost predicate Behind(s: Server, l: nat, i: nat, later: Id)
    requires l < |s.loops| && |s.home| <= |s.fdOf| == |s.life| && later < |s.fdOf|
  {
    later < |s.home| && s.home[later] == l ==>
      && s.life[later] == Queued
      && forall j | 0 <= j <= i && j < |s.loops[l].queue| :: s.loops[l].queue[j] != Install(later, s.fdOf[later])
  }

  ghost predicate TaskOk(s: Server, l: nat, i: nat)
    requires l < |s.loops| && |s.home| <= |s.fdOf| == |s.life| && i < |s.loops[l].queue|
  {
    match s.loops[l].queue[i]
    case Install(k, fd) => HomedOn(s, l, k, fd) && s.life[k] == Queued
    case Close(k, fd) =>
      && HomedOn(s, l, k, fd) && s.life[k] != Accepted && s.life[k] != Queued
      && NumberKept(s, l, i, k)
  }

  /** Until task i, no later connection with k's number can be installed on loop l. */
  ghost predicate NumberKept(s: Server, l: nat, i: nat, k: Id)
    requires l < |s.loops| && |s.home| <= |s.fdOf| == |s.life| && k < |s.fdOf|
  {
    forall later: Id | k < later < |s.fdOf| && s.fdOf[later] == s.fdOf[k] :: Behind(s, l, i, later)
  }

  ghost predicate QueueOk(s: Server, l: nat)
    requires l < |s.loops| && |s.home| <= |s.fdOf| == |s.life|
  {
    && (forall i: nat | i < |s.loops[l].queue| :: TaskOk(s, l, i))
    && (forall i, j | 0 <= i < j < |s.loops[l].queue| && s.loops[l].queue[i].Install? && s.loops[l].queue[j].Install? ::
          s.loops[l].queue[i].id < s.loops[l].queue[j].id)
  }

  predicate Erased(life: Life) {
    life == Detached || life == Closed
  }

  predicate WasMapped(life: Life) {
    life == Mapped || Erased(life)
  }

  ghost predicate ActiveOk(s: Server, l: nat)
    requires l < |s.loops| && |s.home| <= |s.fdOf| == |s.life|
  {
    var L := s.loops[l];
    && NoDup(L.active)
    && (forall k | k in L.active :: k < |s.home| && s.home[k] == l && WasMapped(s.life[k]))
    && (L.pc.Handling? ==> L.pc.id !in L.active)
    && (L.pc.Ready? || L.pc.Handling? || L.active == [])
  }

  ghost predicate LogOk(s: Server, l: nat)
    requires l < |s.loops|
  {
    var L := s.loops[l];
    && Fold(L.log) == Table(s, l)
    && InstallsOf(L.log) + BuildingIds(L.pc) + QueuedIds(L.queue) == Assigned(l, |s.loops|, |s.home|)
  }

  /** The log has one kind of removal, of the connection that was asked for, and has it for exactly the
      connections that were erased. */
  ghost predicate RemovalsOk(s: Server, l: nat)
    requires l < |s.loops| && |s.home| <= |s.fdOf| == |s.life|
  {
    && (forall e | e in s.loops[l].log && e.Rem? ::
          e.victim == Some(e.request) && HomedOn(s, l, e.request, e.fd) && Erased(s.life[e.request]))
    && (forall k: Id | k < |s.home| && s.home[k] == l && Erased(s.life[k]) ::
          Rem(k, Some(k), s.fdOf[k]) in s.loops[l].log)
  }

  ghost predicate LoopOk(s: Server, l: nat)
    requires l < |s.loops| && |s.home| <= |s.fdOf| == |s.life|
  {
    && RegFollows(s, l) && PcOk(s, l) && RemovingOk(s, l) && TableOk(s, l) && QueueOk(s, l) && ActiveOk(s, l)
    && LogOk(s, l) && RemovalsOk(s, l)
  }

  /** Each stage of a connection's life is a place where it really is. */
  ghost predicate LifeOk(s: Server, k: Id)
    requires Sizes(s) && k < |s.life|
  {
    && (s.life[k] == Accepted <==> k >= |s.home|)
    && (s.life[k] != Closed ==> s.fdOf[k] in s.open && s.open[s.fdOf[k]] == k)
    && (k < |s.home| ==>
          var l := s.home[k];
          match s.life[k]
          case Queued => Install(k, s.fdOf[k]) in s.loops[l].queue
          case Building => s.loops[l].pc == Constructed(k) || s.loops[l].pc == Activated(k)
          case Mapped => s.fdOf[k] in Table(s, l) && Table(s, l)[s.fdOf[k]] == k
          case _ => true)
  }

  /** An erased connection lives on only through a handler's guard or another pointer. */
  ghost predicate DetachedOk(s: Server, k: Id)
    requires Sizes(s) && k < |s.life|
  {
    k < |s.home| && s.life[k] == Detached
    ==> s.loops[s.home[k]].pc == Handling(k) || k in s.extra
  }

  ghost predicate OpenOk(s: Server) {
    && (forall fd | fd in s.open ::
          s.open[fd] < |s.fdOf| == |s.life| && s.fdOf[s.open[fd]] == fd && s.life[s.open[fd]] != Closed)
    && (forall j, k | 0 <= j < k < |s.fdOf| == |s.life| && s.fdOf[j] == s.fdOf[k] :: s.life[j] == Closed)
  }

  ghost predicate ExtraOk(s: Server) {
    forall k | k in s.extra ::
      k < |s.home| <= |s.life| && (s.life[k] == Building || s.life[k] == Mapped || s.life[k] == Detached)
  }

  /** The invariant, but connection `x` may have lost its last pointer without being destroyed yet. */
  ghost predicate InvBut(s: Server, x: Option<Id>) {
    && Sizes(s)
    && (forall l: nat | l < |s.loops| :: LoopOk(s, l))
    && (forall k: Id | k < |s.life| :: LifeOk(s, k))
    && (forall k: Id | k < |s.life| && x != Some(k) :: DetachedOk(s, k))
    && OpenOk(s)
    && ExtraOk(s)
  }

  ghost predicate Inv(s: Server) {
    InvBut(s, None)
  }

  lemma InitInv(n: nat)
    requires n > 0
    ensures Inv(Init(n))
  {
  }

  // --- Frames ---------------------------------------------------------------------------------

  /** Loop l, its table and its connections are as before, save that one of its detached connections
      may have been destroyed; connections may have been added elsewhere. */
  ghost predicate Untouched(s: Server, n: Server, l: nat) {
    && Sizes(s) && Sizes(n) && l < |s.loops| == |n.loops|
    && n.loops[l] == s.loops[l] && Table(n, l) == Table(s, l)
    && s.fdOf <= n.fdOf && s.home <= n.home
    && (forall k: Id | k < |s.home| && s.home[k] == l :: SameLife(s, n, l, k))
    && (forall k: Id | |s.home| <= k < |n.home| :: n.home[k] != l)
  }

  ghost predicate SameLife(s: Server, n: Server, l: nat, k: Id)
    requires l < |s.loops| && k < |s.life| <= |n.life|
  {
    n.life[k] == s.life[k]
    || (s.life[k] == Detached && n.life[k] == Closed && s.loops[l].pc != Handling(k))
  }

  lemma FrameLoop(s: Server, n: Server, l: nat)
    requires Untouched(s, n, l) && LoopOk(s, l)
    ensures LoopOk(n, l)
  {
    FramePc(s, n, l);
    FrameQueue(s, n, l);
    FrameTable(s, n, l);
    FrameLog(s, n, l);
    FrameRemovals(s, n, l);
  }

  lemma FrameRemovals(s: Server, n: Server, l: nat)
    requires Untouched(s, n, l) && RemovalsOk(s, l)
    ensures RemovalsOk(n, l)
  {
    forall k: Id | k < |n.home| && n.home[k] == l && Erased(n.life[k])
      ensures Rem(k, Some(k), n.fdOf[k]) in n.loops[l].log
    {
      assert SameLife(s, n, l, k);
    }
    forall e | e in n.loops[l].log && e.Rem?
      ensures HomedOn(n, l, e.request, e.fd) && Erased(n.life[e.request])
    {
      assert HomedOn(s, l, e.request, e.fd) && SameLife(s, n, l, e.request);
    }
  }

  lemma FrameLog(s: Server, n: Server, l: nat)
    requires Untouched(s, n, l) && LogOk(s, l)
    ensures LogOk(n, l)
  {
    forall k: nat | |s.home| <= k < |n.home|
      ensures k % |s.loops| != l
    {
      assert n.home[k] == k % |n.loops|;
    }
    AssignedSame(l, |s.loops|, |s.home|, |n.home|);
  }

  lemma FramePc(s: Server, n: Server, l: nat)
    requires Untouched(s, n, l) && RegFollows(s, l) && PcOk(s, l) && RemovingOk(s, l)
    ensures RegFollows(n, l) && PcOk(n, l) && RemovingOk(n, l)
  {
  }

  lemma FrameTable(s: Server, n: Server, l: nat)
    requires Untouched(s, n, l) && TableOk(s, l) && ActiveOk(s, l)
    ensures TableOk(n, l) && ActiveOk(n, l)
  {
  }

  lemma FrameQueue(s: Server, n: Server, l: nat)
    requires Untouched(s, n, l) && QueueOk(s, l)
    ensures QueueOk(n, l)
  {
    forall i: nat | i < |n.loops[l].queue|
      ensures TaskOk(n, l, i)
    {
      assert TaskOk(s, l, i);
      var k := s.loops[l].queue[i].id;
      assert SameLife(s, n, l, k);
      if s.loops[l].queue[i].Close? {
        FrameBehind(s, n, l, i, k);
      }
    }
  }

  lemma FrameBehind(s: Server, n: Server, l: nat, i: nat, k: Id)
    requires Untouched(s, n, l) && k < |s.fdOf| && NumberKept(s, l, i, k)
    ensures NumberKept(n, l, i, k)
  {
  }

  lemma {:induction false} AssignedSame(l: nat, n: nat, m: nat, m': nat)
    requires n > 0 && m <= m'
    requires forall k: nat | m <= k < m' :: k % n != l
    ensures Assigned(l, n, m') == Assigned(l, n, m)
  {
    if m < m' {
      AssignedSame(l, n, m, m' - 1);
    }
  }

  lemma HeldLife(s: Server, k: Id)
    requires InvBut(s, Some(k)) && Held(s, k)
    ensures k < |s.home| && (s.life[k] == Building || s.life[k] == Mapped || s.life[k] == Detached)
    ensures DetachedOk(s, k)
  {
    if k !in s.extra {
      var l :| 0 <= l < |s.loops| && HeldOn(s, l, k);
      assert LoopOk(s, l);
      if LocalOrGuard(s.loops[l].pc) != Some(k) {
        assert HomedOn(s, l, Table(s, l)[s.fdOf[k]], s.fdOf[k]);
      }
    }
  }

  lemma NotHeldIsDetached(s: Server, k: Id)
    requires InvBut(s, Some(k)) && k < |s.home| && !Held(s, k)
    requires s.life[k] == Building || s.life[k] == Mapped || s.life[k] == Detached
    ensures s.life[k] == Detached && s.loops[s.home[k]].pc != Handling(k)
  {
    assert LifeOk(s, k);
    assert 0 <= s.home[k] < |s.loops|;
    assert !HeldOn(s, s.home[k], k);
  }

  /** Dropping a pointer keeps the invariant: the last one closes the connection and its number. */
  lemma ReleasedInv(s: Server, k: Id)
    requires InvBut(s, Some(k)) && k < |s.home|
    requires s.life[k] == Building || s.life[k] == Mapped || s.life[k] == Detached
    ensures Inv(Released(s, k))
  {
    if Held(s, k) {
      HeldLife(s, k);
    } else {
      NotHeldIsDetached(s, k);
      DestroyedLives(s, k);
      var n := Released(s, k);
      forall o: nat | o < |s.loops|
        ensures LoopOk(n, o)
      {
        assert Untouched(s, n, o);
        FrameLoop(s, n, o);
      }
    }
  }

  lemma DestroyedLives(s: Server, k: Id)
    requires InvBut(s, Some(k)) && k < |s.home| && s.life[k] == Detached
    ensures var n := s.(open := s.open - {s.fdOf[k]}, life := s.life[k := Closed]);
            && Sizes(n) && OpenOk(n)
            && (forall j: Id | j < |n.life| :: LifeOk(n, j) && DetachedOk(n, j))
  {
    var n := s.(open := s.open - {s.fdOf[k]}, life := s.life[k := Closed]);
    forall j: Id | j < |n.life|
      ensures LifeOk(n, j) && DetachedOk(n, j)
    {
      assert LifeOk(s, j) && LifeOk(s, k);
      assert j != k ==> DetachedOk(s, j);
    }
  }

  lemma CrashInv(s: Server)
    requires Inv(s)
    ensures Inv(s.(crashed := true))
  {
    var n := s.(crashed := true);
    forall o: nat | o < |s.loops|
      ensures LoopOk(n, o)
    {
      FrameLoop(s, n, o);
    }
    forall j: Id | j < |n.life|
      ensures LifeOk(n, j) && DetachedOk(n, j)
    {
      assert LifeOk(s, j) && DetachedOk(s, j);
    }
  }
}
