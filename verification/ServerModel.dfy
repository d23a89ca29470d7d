/** Accepting, handing over, serving and closing connections, as interleaved steps of the accepting
    thread, of every loop's thread, and of other threads that hold connection pointers.
    A loop's task queue is the FIFO that `EventLoopTheorems.RunRefinesFifo` gives. A file descriptor
    number is free again as soon as the Channel that owns it is destroyed. */
module ServerModel {
  import opened Options
  import ThreadPool

  type Fd = nat
  type Id = nat            // the k-th accepted connection has identity k

  /** What is queued on a loop: a bound newConnnection, or a bound removeConnection (its `fd` argument,
      and the connection that asked). */
  datatype Task = Install(id: Id, fd: Fd) | Close(id: Id, fd: Fd)

  datatype LoopPc =
    | Ready                               // between callbacks, or in a functor or timer
    | Constructed(id: Id)                 // in newConnnection: the local pointer owns the connection
    | Activated(id: Id)                   // tied and registered with the poller
    | Inserted(id: Id)                    // in the table, local pointer still alive
    | Handling(id: Id)                    // in handleEvent, guard held

  /** A removeConnection under way: its `fd` argument, and the connection that asked. */
  datatype Removal = Removal(id: Id, fd: Fd)

  datatype Event = Ins(id: Id, fd: Fd) | Rem(request: Id, victim: Option<Id>, fd: Fd)

  datatype LoopState = LoopState(
    queue: seq<Task>,
    pc: LoopPc,
    removing: Option<Removal>,            // past removeChannel, before erase; nested in what pc says
    active: seq<Id>,                      // ActivityChannel, what is left to dispatch
    reg: map<Fd, Id>,                     // the poller's channels
    log: seq<Event>)                      // history of this loop's table

  /** Where a connection is in its life; a history, read by no step. */
  datatype Life = Accepted | Queued | Building | Mapped | Detached | Closed

  datatype Server = Server(
    loops: seq<LoopState>,
    connectionMap: map<nat, map<Fd, Id>>, // sharded by loop
    next: nat,                            // the pool's round-robin cursor
    accepting: Option<Id>,                // accepted, not yet handed over
    open: map<Fd, Id>,                    // the OS table: which connection an open number belongs to
    extra: multiset<Id>,                  // other strong pointers to connections
    fdOf: seq<Fd>,                        // per connection, its number
    home: seq<nat>,                       // per handed-over connection, its loop
    life: seq<Life>,
    crashed: bool)                        // a channel that is not there was used

  datatype Action =
    | Accept(fd: Fd)
    | HandOver                            // newConnectioninLoop
    | BeginInstall(l: nat)                // newConnnection: construct, then the user's callback
    | Activate(l: nat)                    //   activationChannel
    | Insert(l: nat)                      //   connectionMap[currLoop].insert
    | EndInstall(l: nat)                  //   the local pointer goes
    | Poll(l: nat, ready: seq<Id>)
    | BeginHandle(l: nat)                 // handleEvent: lock the tie
    | EndHandle(l: nat)                   // the guard goes
    | BeginClose(l: nat)                  // a queued removeConnection starts
    | FinishRemoval(l: nat)               // connectionMap[currloop].erase
    | RequestClose(from: Option<nat>, id: Id) // handleClose, by user code on a loop's thread or by another thread
    | CopyPointer(id: Id)
    | DropPointer(id: Id)

  /** The tables `start` creates: one empty table per loop. */
  function EmptyTables(n: nat): (m: map<nat, map<Fd, Id>>)
    ensures forall l: nat :: l in m <==> l < n
    ensures forall l: nat | l < n :: m[l] == map[]
  {
    if n == 0 then map[] else EmptyTables(n - 1)[n - 1 := map[]]
  }

  function Init(n: nat): Server
    requires n > 0
  {
    Server(seq(n, _ => LoopState([], Ready, None, [], map[], [])),
           EmptyTables(n), 0, None, map[], multiset{}, [], [], [], false)
  }

  /** `connectionMap[l]`, as operator[] reads it: an absent key reads as an empty table. */
  function Table(s: Server, l: nat): map<Fd, Id> {
    if l in s.connectionMap then s.connectionMap[l] else map[]
  }

  function LocalOrGuard(pc: LoopPc): Option<Id> {
    match pc
    case Constructed(k) => Some(k)
    case Activated(k) => Some(k)
    case Inserted(k) => Some(k)
    case Handling(k) => Some(k)
    case Ready => None
  }

  predicate HeldOn(s: Server, l: nat, k: Id) {
    l < |s.loops| && k < |s.fdOf|
    && (LocalOrGuard(s.loops[l].pc) == Some(k)
        || (s.fdOf[k] in Table(s, l) && Table(s, l)[s.fdOf[k]] == k))
  }

  /** Some strong pointer to connection k exists. */
  predicate Held(s: Server, k: Id) {
    k in s.extra || exists l :: 0 <= l < |s.loops| && HeldOn(s, l, k)
  }

  /** A strong pointer to k has gone; the last one takes Connection, Channel and the open number. */
  function Released(s: Server, k: Id): Server {
    if k >= |s.life| || k >= |s.fdOf| then s
    else if Held(s, k) then s
    else s.(open := s.open - {s.fdOf[k]}, life := s.life[k := Closed])
  }

  function SetPc(s: Server, l: nat, pc: LoopPc): Server
    requires l < |s.loops|
  {
    s.(loops := s.loops[l := s.loops[l].(pc := pc)])
  }

  /** removeChannel(fd) on loop l, for connection k. The poller must know the number: asked for one it
      does not have, it goes on to use a channel that is not there. */
  function RemoveChannel(s: Server, l: nat, k: Id, fd: Fd): Server
    requires l < |s.loops|
  {
    if fd !in s.loops[l].reg then s.(crashed := true)
    else s.(loops := s.loops[l := s.loops[l].(reg := s.loops[l].reg - {fd}, removing := Some(Removal(k, fd)))])
  }

  /** connectionMap[l].erase(fd), for the removal r under way. */
  function Erase(s: Server, l: nat, r: Removal): Server
    requires l < |s.loops|
  {
    var t := Table(s, l);
    var victim := if r.fd in t then Some(t[r.fd]) else None;
    var n := s.(connectionMap := s.connectionMap[l := t - {r.fd}],
                loops := s.loops[l := s.loops[l].(removing := None,
                                                  log := s.loops[l].log + [Rem(r.id, victim, r.fd)])]);
    if victim.Some? && victim.value < |s.life|
      then Released(n.(life := n.life[victim.value := Detached]), victim.value)
      else n
  }

  predicate Steady(s: Server, l: nat) {
    l < |s.loops| && s.loops[l].removing == None
  }

  predicate Idle(s: Server, l: nat) {
    Steady(s, l) && s.loops[l].pc == Ready && s.loops[l].active == []
  }

  /** Loop l's thread can be in user code: a functor or timer, the callback for a new connection, or an
      event's callback. */
  predicate UserCode(s: Server, l: nat) {
    Idle(s, l) || (Steady(s, l) && (s.loops[l].pc.Constructed? || s.loops[l].pc.Handling?))
  }

  predicate NoDup(ids: seq<Id>) {
    forall i, j | 0 <= i < j < |ids| :: ids[i] != ids[j]
  }

  predicate Enabled(s: Server, a: Action) {
    && !s.crashed
    && |s.loops| > 0
    && match a
       case Accept(fd) => s.accepting == None && fd !in s.open
       case HandOver => s.accepting.Some? && s.next < |s.loops| && s.accepting.value < |s.fdOf| == |s.life|
       case BeginInstall(l) =>
         Idle(s, l) && s.loops[l].queue != [] && s.loops[l].queue[0].Install?
         && s.loops[l].queue[0].id < |s.life|
       case Activate(l) =>
         Steady(s, l) && s.loops[l].pc.Constructed? && s.loops[l].pc.id < |s.fdOf|
       case Insert(l) =>
         Steady(s, l) && s.loops[l].pc.Activated? && s.loops[l].pc.id < |s.fdOf| == |s.life|
       case EndInstall(l) => Steady(s, l) && s.loops[l].pc.Inserted?
       case Poll(l, ready) =>
         && Idle(s, l) && NoDup(ready)
         && forall k | k in ready :: k < |s.fdOf| && s.fdOf[k] in s.loops[l].reg && s.loops[l].reg[s.fdOf[k]] == k
       case BeginHandle(l) => Steady(s, l) && s.loops[l].pc == Ready && s.loops[l].active != []
       case EndHandle(l) => Steady(s, l) && s.loops[l].pc.Handling?
       case BeginClose(l) => Idle(s, l) && s.loops[l].queue != [] && s.loops[l].queue[0].Close?
       case FinishRemoval(l) => l < |s.loops| && s.loops[l].removing.Some?
       case RequestClose(from, k) =>
         && Held(s, k) && k < |s.home| <= |s.fdOf| && s.home[k] < |s.loops|
         && (from.Some? ==> UserCode(s, from.value))
       case CopyPointer(k) => Held(s, k)
       case DropPointer(k) => k in s.extra
  }

  function Enqueue(s: Server, l: nat, t: Task): Server
    requires l < |s.loops|
  {
    s.(loops := s.loops[l := s.loops[l].(queue := s.loops[l].queue + [t])])
  }

  function Pop(s: Server, l: nat): Server
    requires l < |s.loops| && s.loops[l].queue != []
  {
    s.(loops := s.loops[l := s.loops[l].(queue := s.loops[l].queue[1..])])
  }

  function Next(s: Server, a: Action): Server
    requires Enabled(s, a)
  {
    match a
    case Accept(fd) =>
      s.(accepting := Some(|s.fdOf|), open := s.open[fd := |s.fdOf|], fdOf := s.fdOf + [fd],
         life := s.life + [Accepted])
    case HandOver =>
      var k := s.accepting.value;
      var l := s.next;
      Enqueue(s.(accepting := None, next := ThreadPool.Advance(s.next, |s.loops|),
                 home := s.home + [l], life := s.life[k := Queued]), l, Install(k, s.fdOf[k]))
    case BeginInstall(l) =>
      var k := s.loops[l].queue[0].id;
      SetPc(Pop(s.(life := s.life[k := Building]), l), l, Constructed(k))
    case Activate(l) =>
      var k := s.loops[l].pc.id;
      s.(loops := s.loops[l := s.loops[l].(reg := s.loops[l].reg[s.fdOf[k] := k], pc := Activated(k))])
    case Insert(l) =>
      var k := s.loops[l].pc.id;
      var t := Table(s, l);
      var fd := s.fdOf[k];
      s.(connectionMap := s.connectionMap[l := if fd in t then t else t[fd := k]], life := s.life[k := Mapped],
         loops := s.loops[l := s.loops[l].(pc := Inserted(k), log := s.loops[l].log + [Ins(k, fd)])])
    case EndInstall(l) => Released(SetPc(s, l, Ready), s.loops[l].pc.id)
    case Poll(l, ready) => s.(loops := s.loops[l := s.loops[l].(active := ready)])
    case BeginHandle(l) =>
      var k := s.loops[l].active[0];
      if !Held(s, k) then s.(crashed := true)
      else s.(loops := s.loops[l := s.loops[l].(active := s.loops[l].active[1..], pc := Handling(k))])
    case EndHandle(l) => Released(SetPc(s, l, Ready), s.loops[l].pc.id)
    case BeginClose(l) =>
      var t := s.loops[l].queue[0];
      RemoveChannel(Pop(s, l), l, t.id, t.fd)
    case FinishRemoval(l) => Erase(s, l, s.loops[l].removing.value)
    case RequestClose(from, k) =>
      var fd := s.fdOf[k];
      if from == Some(s.home[k]) then RemoveChannel(s, s.home[k], k, fd)
      else Enqueue(s, s.home[k], Close(k, fd))
    case CopyPointer(k) => s.(extra := s.extra + multiset{k})
    case DropPointer(k) => Released(s.(extra := s.extra - multiset{k}), k)
  }

  predicate CanRun(s: Server, acts: seq<Action>)
    decreases |acts|
  {
    acts == [] || (Enabled(s, acts[0]) && CanRun(Next(s, acts[0]), acts[1..]))
  }

  function Run(s: Server, acts: seq<Action>): Server
    requires CanRun(s, acts)
    decreases |acts|
  {
    if acts == [] then s else Run(Next(s, acts[0]), acts[1..])
  }
}
