/** The TCP server as the program has it: one object whose tables, queues and pointers are changed in
    place by the accepting thread, the loops' threads and others. Loops are named by their position
    among the loops `getNextLoop` can return. */
module TcpServerObject {
  import opened Options
  import opened ServerModel
  import opened ServerInvariant
  import opened ServerSteps
  import ThreadPool

  /** `start` creates one empty table per pool loop, or one for the base loop if there is no pool: the
      keys are exactly the loops that `getNextLoop` can return. */
  method StartTables(loops: seq<ThreadPool.LoopRef>, baseLoop: ThreadPool.LoopRef)
    returns (tables: map<ThreadPool.LoopRef, map<Fd, Id>>)
    ensures forall l :: l in tables <==> l in ThreadPool.Targets(loops, baseLoop)
    ensures forall l :: l in tables <==> if loops == [] then l == baseLoop else l in loops
    ensures forall l | l in tables :: tables[l] == map[]
  {
    tables := map[];
    if loops != [] {
      var i := 0;
      while i < |loops|
        invariant 0 <= i <= |loops|
        invariant forall l :: l in tables <==> l in loops[..i]
        invariant forall l | l in tables :: tables[l] == map[]
      {
        if loops[i] !in tables {
          tables := tables[loops[i] := map[]];
        }
        i := i + 1;
      }
      assert loops[..i] == loops;
    } else {
      tables := tables[baseLoop := map[]];
    }
  }

  class TcpServer {
    var loops: seq<LoopState>
    var connectionMap: map<nat, map<Fd, Id>>
    var next: nat
    var accepting: Option<Id>
    var open: map<Fd, Id>
    var extra: multiset<Id>
    var fdOf: seq<Fd>
    var home: seq<nat>
    var life: seq<Life>
    var crashed: bool

    function Abs(): Server
      reads this
    {
      Server(loops, connectionMap, next, accepting, open, extra, fdOf, home, life, crashed)
    }

    ghost predicate Valid()
      reads this
    {
      Inv(Abs())
    }

    constructor (n: nat)
      requires n > 0
      ensures Valid() && Abs() == Init(n)
    {
      loops := seq(n, _ => LoopState([], Ready, None, [], map[], []));
      connectionMap := EmptyTables(n);
      next, accepting, open, extra := 0, None, map[], multiset{};
      fdOf, home, life, crashed := [], [], [], false;
      new;
      InitInv(n);
    }

    /** A shared_ptr to connection k has gone. If it was the last, ~Connection and ~Channel run, the
        connection is destroyed and its number is closed; if not, nothing happens. No other connection
        and no other number is affected, and the server is consistent again. */
    method ReleasePointer(k: Id)
      requires InvBut(Abs(), Some(k)) && k < |home|
      requires life[k] == Building || life[k] == Mapped || life[k] == Detached
      modifies this`open, this`life
      ensures Valid() && |life| == old(|life|)
      ensures fdOf[k] in open <==> old(Held(Abs(), k))
      ensures life[k] == Closed <==> !old(Held(Abs(), k))
      ensures forall fd | fd != fdOf[k] ::
                (fd in open <==> fd in old(open)) && (fd in open ==> open[fd] == old(open)[fd])
      ensures forall j: Id | j < |life| && j != k :: life[j] == old(life)[j]
      ensures Abs() == Released(old(Abs()), k)
    {
      ReleasedInv(Abs(), k);
      assert LifeOk(Abs(), k);
      if !Held(Abs(), k) {
        open := open - {fdOf[k]};
        life := life[k := Closed];
      }
    }

    /** accept4 returns a number that is not open. */
    method AcceptOne(fd: Fd)
      requires Valid() && Enabled(Abs(), Accept(fd))
      modifies this
      ensures Valid() && Abs() == Next(old(Abs()), Accept(fd))
    {
      AcceptInv(Abs(), fd);
      var k := |fdOf|;
      open := open[fd := k];
      accepting := Some(k);
      fdOf := fdOf + [fd];
      life := life + [Accepted];
    }

    /** The pool's getNextLoop: the loop at the cursor, which goes round. */
    method NextLoop() returns (l: nat)
      modifies this`next
      ensures l == old(next) && next == ThreadPool.Advance(old(next), |loops|)
    {
      l := next;
      next := next + 1;
      if next >= |loops| {
        next := 0;
      }
    }

    method NewConnectionInLoop()
      requires Valid() && Enabled(Abs(), HandOver)
      modifies this
      ensures Valid() && Abs() == Next(old(Abs()), HandOver)
    {
      ghost var before := Abs();
      assert Inv(Next(before, HandOver)) by { HandOverInv(before); }
      HandOverFields(before);
      var k := accepting.value;
      var currLoop := NextLoop();
      loops := loops[currLoop := loops[currLoop].(queue := loops[currLoop].queue + [Install(k, fdOf[k])])];
      accepting := None;
      home := home + [currLoop];
      life := life[k := Queued];
    }

    /** newConnnection on loop l's thread: the task is taken and the Connection constructed. */
    method BeginNewConnection(l: nat)
      requires Valid() && Enabled(Abs(), BeginInstall(l))
      modifies this
      ensures Valid() && Abs() == Next(old(Abs()), BeginInstall(l))
    {
      BeginInstallInv(Abs(), l);
      var k := loops[l].queue[0].id;
      life := life[k := Building];
      loops := loops[l := loops[l].(queue := loops[l].queue[1..])];
      loops := loops[l := loops[l].(pc := Constructed(k))];
    }

    /** activationChannel: tie the channel and register it. */
    method ActivationChannel(l: nat)
      requires Valid() && Enabled(Abs(), Activate(l))
      modifies this
      ensures Valid() && Abs() == Next(old(Abs()), Activate(l))
    {
      ActivateInv(Abs(), l);
      var k := loops[l].pc.id;
      loops := loops[l := loops[l].(reg := loops[l].reg[fdOf[k] := k], pc := Activated(k))];
    }

    /** connectionMap[currLoop].insert: a key that is present would keep its old value. */
    method InsertConnection(l: nat)
      requires Valid() && Enabled(Abs(), Insert(l))
      modifies this
      ensures Valid() && Abs() == Next(old(Abs()), Insert(l))
    {
      InsertInv(Abs(), l);
      var k := loops[l].pc.id;
      var fd := fdOf[k];
      var table := if l in connectionMap then connectionMap[l] else map[];
      if fd !in table {
        table := table[fd := k];
      }
      connectionMap := connectionMap[l := table];
      loops := loops[l := loops[l].(pc := Inserted(k), log := loops[l].log + [Ins(k, fd)])];
      life := life[k := Mapped];
    }

    /** newConnnection returns and its local pointer goes. */
    method EndNewConnection(l: nat)
      requires Valid() && Enabled(Abs(), EndInstall(l))
      modifies this
      ensures Valid() && Abs() == Next(old(Abs()), EndInstall(l))
    {
      ReadyBut(Abs(), l);
      var k := loops[l].pc.id;
      loops := loops[l := loops[l].(pc := Ready)];
      ReleasePointer(k);
    }

    /** The poller of loop l reports the channels of connections `ready`. */
    method PollLoop(l: nat, ready: seq<Id>)
      requires Valid() && Enabled(Abs(), Poll(l, ready))
      modifies this
      ensures Valid() && Abs() == Next(old(Abs()), Poll(l, ready))
    {
      PollInv(Abs(), l, ready);
      loops := loops[l := loops[l].(active := ready)];
    }

    /** handleEvent on the next active channel: lock the tie. The channel is there, and the tie is not
        empty, unless another callback had the connection destroyed. */
    method BeginHandleEvent(l: nat)
      requires Valid() && Enabled(Abs(), BeginHandle(l))
      modifies this
      ensures Valid() && Abs() == Next(old(Abs()), BeginHandle(l))
      ensures var k := old(loops[l].active[0]); k < |life| && (crashed <==> life[k] == Closed)
    {
      BeginHandleInv(Abs(), l);
      var k := loops[l].active[0];
      ActiveIsHeld(Abs(), l, k);
      if !Held(Abs(), k) {
        crashed := true;
      } else {
        loops := loops[l := loops[l].(active := loops[l].active[1..], pc := Handling(k))];
      }
    }

    method EndHandleEvent(l: nat)
      requires Valid() && Enabled(Abs(), EndHandle(l))
      modifies this
      ensures Valid() && Abs() == Next(old(Abs()), EndHandle(l))
    {
      ReadyBut(Abs(), l);
      var k := loops[l].pc.id;
      loops := loops[l := loops[l].(pc := Ready)];
      ReleasePointer(k);
    }

    /** The poller's removeChannel, which must not be asked for a number it does not know. */
    method RemoveOneChannel(l: nat, k: Id, fd: Fd)
      requires l < |loops|
      modifies this`loops, this`crashed
      ensures Abs() == RemoveChannel(old(Abs()), l, k, fd)
    {
      if fd !in loops[l].reg {
        crashed := true;
      } else {
        loops := loops[l := loops[l].(reg := loops[l].reg - {fd}, removing := Some(Removal(k, fd)))];
      }
    }

    /** handleClose, from user code on a loop's thread or from another thread: on the connection's own
        loop removeConnection runs at once, inside whatever that loop is doing. */
    method HandleClose(from: Option<nat>, k: Id)
      requires Valid() && Enabled(Abs(), RequestClose(from, k))
      modifies this
      ensures Valid() && Abs() == Next(old(Abs()), RequestClose(from, k))
    {
      RequestCloseInv(Abs(), from, k);
      var l := home[k];
      if from == Some(l) {
        RemoveOneChannel(l, k, fdOf[k]);
      } else {
        loops := loops[l := loops[l].(queue := loops[l].queue + [Close(k, fdOf[k])])];
      }
    }

    /** removeConnection, up to removeChannel, as a queued functor. */
    method BeginRemoveConnection(l: nat)
      requires Valid() && Enabled(Abs(), BeginClose(l))
      modifies this
      ensures Valid() && Abs() == Next(old(Abs()), BeginClose(l))
    {
      BeginCloseInv(Abs(), l);
      var t := loops[l].queue[0];
      loops := loops[l := loops[l].(queue := loops[l].queue[1..])];
      RemoveOneChannel(l, t.id, t.fd);
    }

    /** removeConnection, from erase on. */
    method FinishRemoveConnection(l: nat)
      requires Valid() && Enabled(Abs(), FinishRemoval(l))
      modifies this
      ensures Valid() && Abs() == Next(old(Abs()), FinishRemoval(l))
    {
      EraseIsErasing(Abs(), l);
      ghost var before := Abs();
      var k := loops[l].removing.value.id;
      var fd := loops[l].removing.value.fd;
      ErasedInv(before, l, k);
      connectionMap := connectionMap[l := connectionMap[l] - {fd}];
      loops := loops[l := loops[l].(removing := None, log := loops[l].log + [Rem(k, Some(k), fd)])];
      life := life[k := Detached];
      assert Abs() == Erasing(before, l, k);
      ReleasePointer(k);
    }

    method Copy(k: Id)
      requires Valid() && Enabled(Abs(), CopyPointer(k))
      modifies this
      ensures Valid() && Abs() == Next(old(Abs()), CopyPointer(k))
    {
      CopyPointerInv(Abs(), k);
      extra := extra + multiset{k};
    }

    method Drop(k: Id)
      requires Valid() && Enabled(Abs(), DropPointer(k))
      modifies this
      ensures Valid() && Abs() == Next(old(Abs()), DropPointer(k))
    {
      DropPointerBut(Abs(), k);
      extra := extra - multiset{k};
      ReleasePointer(k);
    }

    method Perform(a: Action)
      requires Valid() && Enabled(Abs(), a)
      modifies this
      ensures Valid() && Abs() == Next(old(Abs()), a)
    {
      match a
      case Accept(fd) => AcceptOne(fd);
      case HandOver => NewConnectionInLoop();
      case BeginInstall(l) => BeginNewConnection(l);
      case Activate(l) => ActivationChannel(l);
      case Insert(l) => InsertConnection(l);
      case EndInstall(l) => EndNewConnection(l);
      case Poll(l, ready) => PollLoop(l, ready);
      case BeginHandle(l) => BeginHandleEvent(l);
      case EndHandle(l) => EndHandleEvent(l);
      case BeginClose(l) => BeginRemoveConnection(l);
      case FinishRemoval(l) => FinishRemoveConnection(l);
      case RequestClose(from, k) => HandleClose(from, k);
      case CopyPointer(k) => Copy(k);
      case DropPointer(k) => Drop(k);
    }

    /** Any interleaving, from any valid state. */
    method Drive(acts: seq<Action>)
      requires Valid() && CanRun(Abs(), acts)
      modifies this
      ensures Valid() && Abs() == Run(old(Abs()), acts)
    {
      ghost var start := Abs();
      var i := 0;
      while i < |acts|
        invariant 0 <= i <= |acts| && Valid()
        invariant CanRun(Abs(), acts[i..]) && Run(Abs(), acts[i..]) == Run(start, acts)
      {
        assert acts[i..][1..] == acts[i + 1..];
        Perform(acts[i]);
        i := i + 1;
      }
    }
  }
}
