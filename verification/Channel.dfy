/** A channel: its interest mask, and which callbacks an event runs. */
module ChannelObject {
  type Mask = bv32

  const POLLIN: Mask := 0x01
  const POLLPRI: Mask := 0x02
  const POLLOUT: Mask := 0x04
  const POLLHUP: Mask := 0x10

  const READ_EVENT: Mask := POLLIN | POLLPRI
  const NONE_EVENT: Mask := 0
  const WRITE_EVENT: Mask := POLLOUT

  datatype Op = EnableReading | DisableReading | EnableWriting | DisableWriting | DisableAll

  /** What the mask stands for. */
  datatype Interest = Interest(read: bool, write: bool)

  function Encode(i: Interest): Mask {
    (if i.read then READ_EVENT else 0) | (if i.write then WRITE_EVENT else 0)
  }

  function Wish(i: Interest, op: Op): Interest {
    match op
    case EnableReading => i.(read := true)
    case DisableReading => i.(read := false)
    case EnableWriting => i.(write := true)
    case DisableWriting => i.(write := false)
    case DisableAll => Interest(false, false)
  }

  function Wishes(ops: seq<Op>): Interest {
    if ops == [] then Interest(false, false) else Wish(Wishes(ops[..|ops| - 1]), ops[|ops| - 1])
  }

  /** The bit operation of each method. */
  function Twiddle(event: Mask, op: Op): Mask {
    match op
    case EnableReading => event | READ_EVENT
    case DisableReading => event & !READ_EVENT
    case EnableWriting => event | WRITE_EVENT
    case DisableWriting => event & !WRITE_EVENT
    case DisableAll => NONE_EVENT
  }

  function Twiddles(ops: seq<Op>): Mask {
    if ops == [] then 0 else Twiddle(Twiddles(ops[..|ops| - 1]), ops[|ops| - 1])
  }

  lemma TwiddleRefines(i: Interest, op: Op)
    ensures Twiddle(Encode(i), op) == Encode(Wish(i, op))
  {
  }

  lemma EncodeReads(i: Interest)
    ensures Encode(i) & WRITE_EVENT != 0 <==> i.write
    ensures Encode(i) == NONE_EVENT <==> !i.read && !i.write
  {
  }

  /** Over any sequence of calls the mask is two independent flags: the last wish for each counts. */
  lemma {:induction false} MaskRefinesFlags(ops: seq<Op>)
    ensures Twiddles(ops) == Encode(Wishes(ops))
    ensures Twiddles(ops) & WRITE_EVENT != 0 <==> Wishes(ops).write
    ensures Twiddles(ops) == NONE_EVENT <==> !Wishes(ops).read && !Wishes(ops).write
  {
    if ops != [] {
      MaskRefinesFlags(ops[..|ops| - 1]);
      TwiddleRefines(Wishes(ops[..|ops| - 1]), ops[|ops| - 1]);
    }
    EncodeReads(Wishes(ops));
  }

  /** Call i asks for an event, and no later call takes that back. */
  predicate Stands(ops: seq<Op>, i: int, on: Op, off: Op) {
    0 <= i < |ops| && ops[i] == on && off !in ops[i..] && DisableAll !in ops[i..]
  }

  ghost predicate Wanted(ops: seq<Op>, on: Op, off: Op) {
    exists i :: Stands(ops, i, on, off)
  }

  ghost predicate WantsReading(ops: seq<Op>) {
    Wanted(ops, EnableReading, DisableReading)
  }

  ghost predicate WantsWriting(ops: seq<Op>) {
    Wanted(ops, EnableWriting, DisableWriting)
  }

  lemma WantedStep(ops: seq<Op>, op: Op, on: Op, off: Op)
    requires on != off && on != DisableAll
    ensures Wanted(ops + [op], on, off) <==> op == on || (Wanted(ops, on, off) && op != off && op != DisableAll)
  {
    var more := ops + [op];
    if op == on {
      assert more[|ops|..] == [op];
      assert Stands(more, |ops|, on, off);
    } else {
      forall i | 0 <= i < |ops|
        ensures more[i..] == ops[i..] + [op]
        ensures Stands(more, i, on, off) <==> Stands(ops, i, on, off) && op != off && op != DisableAll
      {
      }
      assert !Stands(more, |ops|, on, off);
    }
  }

  lemma {:induction false} LastWishCounts(ops: seq<Op>)
    ensures Wishes(ops).read <==> WantsReading(ops)
    ensures Wishes(ops).write <==> WantsWriting(ops)
  {
    if ops != [] {
      var before, op := ops[..|ops| - 1], ops[|ops| - 1];
      LastWishCounts(before);
      assert ops == before + [op];
      WantedStep(before, op, EnableReading, DisableReading);
      WantedStep(before, op, EnableWriting, DisableWriting);
    }
  }

  lemma EncodeBits(i: Interest)
    ensures Encode(i) & POLLIN != 0 <==> i.read
    ensures Encode(i) & POLLPRI != 0 <==> i.read
    ensures Encode(i) & POLLOUT != 0 <==> i.write
    ensures Encode(i) & !(POLLIN | POLLPRI | POLLOUT) == 0
  {
  }

  /** The mask for what was wished has the bits of what is wanted. */
  lemma WishedBits(ops: seq<Op>)
    ensures Encode(Wishes(ops)) & POLLIN != 0 <==> WantsReading(ops)
    ensures Encode(Wishes(ops)) & POLLPRI != 0 <==> WantsReading(ops)
    ensures Encode(Wishes(ops)) & POLLOUT != 0 <==> WantsWriting(ops)
    ensures Encode(Wishes(ops)) & !(POLLIN | POLLPRI | POLLOUT) == 0
  {
    LastWishCounts(ops);
    EncodeBits(Wishes(ops));
  }

  /** After any sequence of calls the poller is asked for input and urgent data exactly if reading was
      last asked for, for output exactly if writing was, and for nothing else. */
  lemma MaskAsksForWhatIsWanted(ops: seq<Op>)
    ensures Twiddles(ops) & POLLIN != 0 <==> WantsReading(ops)
    ensures Twiddles(ops) & POLLPRI != 0 <==> WantsReading(ops)
    ensures Twiddles(ops) & POLLOUT != 0 <==> WantsWriting(ops)
    ensures Twiddles(ops) & !(POLLIN | POLLPRI | POLLOUT) == 0
  {
    MaskRefinesFlags(ops);
    WishedBits(ops);
  }

  datatype Callback = ReadCallback | WriteCallback | CloseCallback

  class Channel {
    var event: Mask
    var revent: Mask
    var isSetTie: bool
    var connectionAlive: bool           // the tied weak pointer can be locked
    var callbacks: set<Callback>        // the callbacks that are set
    ghost var ops: seq<Op>              // every call so far
    ghost var updates: seq<Mask>        // every mask handed to the poller

    /** The mask is the calls' net wish, and the poller was told each mask as it arose. */
    ghost predicate Valid()
      reads this
    {
      && event == Encode(Wishes(ops))
      && |updates| == |ops|
      && (forall i | 0 <= i < |ops| :: updates[i] == Encode(Wishes(ops[..i + 1])))
    }

    constructor ()
      ensures Valid() && ops == [] && event == NONE_EVENT && !isSetTie
    {
      event, revent, isSetTie, connectionAlive, callbacks := 0, 0, false, false, {};
      ops, updates := [], [];
    }

    method Update()
      modifies this`updates
      ensures updates == old(updates) + [event]
    {
      updates := updates + [event];
    }

    /** The five methods: each changes the mask, then updates the poller. */
    method Apply(op: Op)
      requires Valid()
      modifies this`event, this`ops, this`updates
      ensures Valid() && ops == old(ops) + [op] && updates == old(updates) + [event]
      ensures event == Encode(Wish(Wishes(old(ops)), op))
      ensures event & POLLIN != 0 <==> WantsReading(ops)
      ensures event & POLLPRI != 0 <==> WantsReading(ops)
      ensures event & POLLOUT != 0 <==> WantsWriting(ops)
    {
      TwiddleRefines(Wishes(ops), op);
      ChangeMask(op);
      ghost var before := ops;
      ops := ops + [op];
      assert ops[..|ops| - 1] == before;
      Update();
      forall i | 0 <= i < |ops|
        ensures updates[i] == Encode(Wishes(ops[..i + 1]))
      {
        assert ops[..i + 1] == if i < |before| then before[..i + 1] else ops;
      }
      WishedBits(ops);
    }

    method ChangeMask(op: Op)
      modifies this`event
      ensures event == Twiddle(old(event), op)
    {
      match op
      case EnableReading => SetMask(event | READ_EVENT);
      case DisableReading => SetMask(event & !READ_EVENT);
      case EnableWriting => SetMask(event | WRITE_EVENT);
      case DisableWriting => SetMask(event & !WRITE_EVENT);
      case DisableAll => SetMask(NONE_EVENT);
    }

    method SetMask(mask: Mask)
      modifies this`event
      ensures event == mask
    {
      event := mask;
    }

    method IsWriting() returns (b: bool)
      requires Valid()
      ensures b <==> Wishes(ops).write
      ensures b <==> WantsWriting(ops)
    {
      LastWishCounts(ops);
      EncodeReads(Wishes(ops));
      b := event & WRITE_EVENT != 0;
    }

    method IsNoneEvent() returns (b: bool)
      requires Valid()
      ensures b <==> !Wishes(ops).read && !Wishes(ops).write
      ensures b <==> !WantsReading(ops) && !WantsWriting(ops)
    {
      LastWishCounts(ops);
      EncodeReads(Wishes(ops));
      b := event == NONE_EVENT;
    }

    method Tie(alive: bool)
      requires Valid()
      modifies this`isSetTie, this`connectionAlive
      ensures Valid() && isSetTie && connectionAlive == alive
    {
      isSetTie := true;
      connectionAlive := alive;
    }

    /** The callbacks an event runs, in order. A channel tied to a dead connection runs none; close is
        run for a hang-up without input only, since a read will see the end of input itself. */
    method HandleEvent() returns (calls: seq<Callback>)
      ensures isSetTie && !connectionAlive ==> calls == []
      ensures !isSetTie || connectionAlive ==>
                && (ReadCallback in calls <==> ReadCallback in callbacks && revent & POLLIN != 0)
                && (WriteCallback in calls <==> WriteCallback in callbacks && revent & POLLOUT != 0)
                && (CloseCallback in calls <==>
                      CloseCallback in callbacks && revent & POLLHUP != 0 && revent & POLLIN == 0)
      ensures forall i, j | 0 <= i < j < |calls| ::
                calls[i] != calls[j] && calls[i] != CloseCallback && calls[j] != ReadCallback
      ensures calls == Dispatched(isSetTie && !connectionAlive, revent, callbacks)
    {
      calls := [];
      var guard := connectionAlive;
      if !isSetTie || guard {
        if revent & POLLIN != 0 {
          if ReadCallback in callbacks {
            calls := calls + [ReadCallback];
          }
        }
        if revent & POLLOUT != 0 {
          if WriteCallback in callbacks {
            calls := calls + [WriteCallback];
          }
        }
        if revent & POLLHUP != 0 && revent & POLLIN == 0 {
          if CloseCallback in callbacks {
            calls := calls + [CloseCallback];
          }
        }
      }
    }
  }

  function When(b: bool, c: Callback): seq<Callback> {
    if b then [c] else []
  }

  function Dispatched(dead: bool, revent: Mask, chosen: set<Callback>): seq<Callback> {
    if dead then []
    else When(revent & POLLIN != 0 && ReadCallback in chosen, ReadCallback)
         + When(revent & POLLOUT != 0 && WriteCallback in chosen, WriteCallback)
         + When(revent & POLLHUP != 0 && revent & POLLIN == 0 && CloseCallback in chosen, CloseCallback)
  }

  /** No event closes a connection both through read and through hang-up, and reading precedes writing. */
  lemma DispatchedOrder(dead: bool, revent: Mask, chosen: set<Callback>)
    ensures var d := Dispatched(dead, revent, chosen);
            && !(ReadCallback in d && CloseCallback in d)
            && |d| <= 2
            && (forall i, j | 0 <= i < j < |d| :: d[i] != d[j] && d[i] != CloseCallback && d[j] != ReadCallback)
  {
  }

  /** From the calls to the callbacks: of what is ready, poll reports what the mask asks for, and a
      hang-up. On a live connection the read callback runs if and only if there is input and reading was
      last asked for, the write callback likewise, and the close callback if and only if the peer hung up
      and no input is reported with it. */
  lemma ReadyReachesCallback(ops: seq<Op>, ready: Mask)
    ensures var d := Dispatched(false, ready & (Twiddles(ops) | POLLHUP), {ReadCallback, WriteCallback, CloseCallback});
            && (ReadCallback in d <==> ready & POLLIN != 0 && WantsReading(ops))
            && (WriteCallback in d <==> ready & POLLOUT != 0 && WantsWriting(ops))
            && (CloseCallback in d <==> ready & POLLHUP != 0 && !(ready & POLLIN != 0 && WantsReading(ops)))
  {
    MaskAsksForWhatIsWanted(ops);
    MaskedBits(ready, Twiddles(ops));
  }

  lemma MaskedBits(ready: Mask, mask: Mask)
    ensures (ready & (mask | POLLHUP)) & POLLIN != 0 <==> ready & POLLIN != 0 && mask & POLLIN != 0
    ensures (ready & (mask | POLLHUP)) & POLLOUT != 0 <==> ready & POLLOUT != 0 && mask & POLLOUT != 0
    ensures (ready & (mask | POLLHUP)) & POLLHUP != 0 <==> ready & POLLHUP != 0
  {
  }

  /** With all callbacks set on a live connection, a reported event is answered by some callback if and
      only if it contains input, output or hang-up. In particular urgent data alone, which READ_EVENT
      asks the poller for, is reported again and again and never answered. */
  lemma AnsweredIff(revent: Mask)
    ensures Dispatched(false, revent, {ReadCallback, WriteCallback, CloseCallback}) != []
            <==> revent & (POLLIN | POLLOUT | POLLHUP) != 0
    ensures Dispatched(false, POLLPRI, {ReadCallback, WriteCallback, CloseCallback}) == []
            && READ_EVENT & POLLPRI != 0
  {
  }
}
