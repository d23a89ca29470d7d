/** The event loop as the program has it: an object whose fields its own thread and other threads
    change in atomic steps. Each method is such a step (or the start of a call) and changes the fields
    exactly as the protocol's step does; `Drive` runs any interleaving of them. */
module EventLoopObject {
  import opened Options
  import opened EventLoopModel
  import opened EventLoopInvariant

  class Eventloop {
    var quit: bool
    var functorList: seq<Functor>
    var functors: seq<Functor>            // the local vector of doPendingFunctors, from the next one on
    var callingPendingFunctors: bool
    var mutexOwner: Option<Tid>
    var wakeupCounter: nat
    const timed: bool
    var pc: LoopPc
    var callers: seq<CallPc>
    ghost var hist: History

    ghost function Abs(): State
      reads this
    {
      State(quit, functorList, functors, callingPendingFunctors, mutexOwner, wakeupCounter, timed, pc,
            callers, hist)
    }

    ghost predicate Valid()
      reads this
    {
      Inv(Abs())
    }

    constructor (threads: nat, timed: bool)
      requires threads > 0
      ensures Valid() && Abs() == Init(threads, timed)
    {
      quit := false;
      functorList, functors := [], [];
      callingPendingFunctors := false;
      mutexOwner := None;
      wakeupCounter := 0;
      this.timed := timed;
      pc := Outside;
      callers := seq(threads, _ => Idle);
      hist := History([], [], [], seq(threads, _ => []));
      new;
      InitInv(threads, timed);
    }

    /** Adds one to the eventfd; at the maximum the non-blocking write fails and is ignored. */
    method Wakeup()
      modifies this`wakeupCounter
      ensures wakeupCounter == (if old(wakeupCounter) < EVENTFD_MAX then old(wakeupCounter) + 1 else old(wakeupCounter))
      ensures old(wakeupCounter) > 0 || wakeupCounter > 0
    {
      if wakeupCounter < EVENTFD_MAX {
        wakeupCounter := wakeupCounter + 1;
      }
    }

    /** Reading a non-semaphore eventfd returns the counter and zeroes it. */
    method HandleRead()
      modifies this`wakeupCounter
      ensures wakeupCounter == 0
    {
      wakeupCounter := 0;
    }

    method QueueInLoop(t: Tid, tag: nat)
      requires Valid() && Enabled(Abs(), Queue(t, tag))
      modifies this
      ensures Valid() && Abs() == Next(old(Abs()), Queue(t, tag))
    {
      ghost var before := Abs();
      var f := Functor(t, OriginAt(t, pc), tag);
      callers := callers[t := WantPush(f)];
      hist := hist.(asked := hist.asked[t := hist.asked[t] + [f]]);
      NextInv(before, Queue(t, tag));
    }

    method RunInLoop(t: Tid, tag: nat)
      requires Valid() && Enabled(Abs(), RunIn(t, tag))
      modifies this
      ensures Valid() && Abs() == Next(old(Abs()), RunIn(t, tag))
    {
      ghost var before := Abs();
      if IsLoopThread(t) {
        hist := hist.(ran := hist.ran + [(Functor(t, OriginAt(t, pc), tag), t)]);
        NextInv(before, RunIn(t, tag));
      } else {
        QueueInLoop(t, tag);
      }
    }

    method QuitLoop(t: Tid)
      requires Valid() && Enabled(Abs(), Quit(t))
      modifies this
      ensures Valid() && Abs() == Next(old(Abs()), Quit(t))
    {
      ghost var before := Abs();
      quit := true;
      callers := callers[t := QuitDecide];
      NextInv(before, Quit(t));
    }

    /** The next step of the queueInLoop or quit call that thread t is in. */
    method CallStep(t: Tid)
      requires Valid() && Enabled(Abs(), Step(t))
      modifies this
      ensures Valid() && Abs() == Next(old(Abs()), Step(t))
    {
      if callers[t].WantPush? || callers[t].HoldPush? || callers[t].Pushed? {
        PushStep(t);
      } else {
        WakeStep(t);
      }
    }

    /** queueInLoop up to the release of the mutex. */
    method PushStep(t: Tid)
      requires Valid() && Enabled(Abs(), Step(t))
      requires callers[t].WantPush? || callers[t].HoldPush? || callers[t].Pushed?
      modifies this
      ensures Valid() && Abs() == Next(old(Abs()), Step(t))
    {
      NextInv(Abs(), Step(t));
      match callers[t] {
        case WantPush(f) =>
          mutexOwner := Some(t);
          callers := callers[t := HoldPush(f)];
        case HoldPush(f) =>
          functorList := functorList + [f];
          hist := hist.(queued := hist.queued + [f]);
          callers := callers[t := Pushed];
        case Pushed =>
          mutexOwner := None;
          callers := callers[t := Decide];
      }
    }

    /** The rest of queueInLoop, and of quit: whether to write the eventfd, and the write. */
    method WakeStep(t: Tid)
      requires Valid() && Enabled(Abs(), Step(t))
      requires callers[t].Decide? || callers[t].QuitDecide? || callers[t].Wake?
      modifies this
      ensures Valid() && Abs() == Next(old(Abs()), Step(t))
    {
      NextInv(Abs(), Step(t));
      match callers[t] {
        case Decide =>
          callers := callers[t := if !IsLoopThread(t) || callingPendingFunctors then Wake(false) else Idle];
        case QuitDecide =>
          callers := callers[t := if !IsLoopThread(t) then Wake(true) else Idle];
        case Wake(_) =>
          Wakeup();
          callers := callers[t := Idle];
      }
    }

    /** poll returns the ready channels; the wakeup channel is ready while the counter is positive. */
    method PollReturns(ready: seq<Channel>)
      requires Valid() && Enabled(Abs(), Poll(ready))
      modifies this
      ensures Valid() && Abs() == Next(old(Abs()), Poll(ready))
    {
      ghost var before := Abs();
      pc := Dispatch(ready);
      NextInv(before, Poll(ready));
    }

    /** The next step of loop() outside the locked and unlocked parts of doPendingFunctors(). */
    method LoopAdvance()
      requires Valid() && Enabled(Abs(), LoopStep) && !CallingPhase(pc)
      modifies this
      ensures Valid() && Abs() == Next(old(Abs()), LoopStep)
    {
      NextInv(Abs(), LoopStep);
      match pc {
        case Outside => pc := TestQuit;
        case TestQuit => pc := if quit then Done else AtPoll;
        case Dispatch(todo) =>
          if todo == [] {
            callingPendingFunctors := true;
            pc := WantSwap;
          } else if todo[0] == WakeupChannel {
            HandleRead();
            pc := Dispatch(todo[1..]);
          } else {
            pc := InHandler(todo[0], todo[1..]);
          }
        case InHandler(_, todo) => pc := Dispatch(todo);
        case Timers => pc := TestQuit;
      }
    }

    /** The next step of doPendingFunctors(): lock, swap, unlock, then the batch one by one. */
    method DoPendingFunctorsAdvance()
      requires Valid() && Enabled(Abs(), LoopStep) && CallingPhase(pc)
      modifies this
      ensures Valid() && Abs() == Next(old(Abs()), LoopStep)
    {
      NextInv(Abs(), LoopStep);
      match pc {
        case WantSwap =>
          mutexOwner := Some(LOOP);
          pc := HoldSwap;
        case HoldSwap =>
          functors, functorList := functorList, functors;
          pc := Swapped;
        case Swapped =>
          mutexOwner := None;
          pc := RunBatch;
        case RunBatch =>
          if functors == [] {
            callingPendingFunctors := false;
            pc := Timers;
          } else {
            hist := hist.(executed := hist.executed + [functors[0]], ran := hist.ran + [(functors[0], LOOP)]);
            functors := functors[1..];
            pc := InFunctor;
          }
        case InFunctor => pc := RunBatch;
      }
    }

    method Perform(a: Action)
      requires Valid() && Enabled(Abs(), a)
      modifies this
      ensures Valid() && Abs() == Next(old(Abs()), a)
    {
      match a
      case Queue(t, tag) => QueueInLoop(t, tag);
      case RunIn(t, tag) => RunInLoop(t, tag);
      case Quit(t) => QuitLoop(t);
      case Step(t) => CallStep(t);
      case Poll(ready) => PollReturns(ready);
      case LoopStep =>
        if CallingPhase(pc) {
          DoPendingFunctorsAdvance();
        } else {
          LoopAdvance();
        }
    }

    /** Any interleaving, from any valid state. */
    method Drive(acts: seq<Action>)
      requires Valid() && CanRun(Abs(), acts)
      modifies this
      ensures Valid() && Abs() == Run(old(Abs()), acts)
    {
      ghost var start := Abs();
      var i := 0;
      while i < |acts|
        invariant 0 <= i <= |acts| && Valid()
        invariant CanRun(Abs(), acts[i..]) && Run(Abs(), acts[i..]) == Run(start, acts)
      {
        assert acts[i..][1..] == acts[i + 1..];
        Perform(acts[i]);
        i := i + 1;
      }
    }
  }
}
