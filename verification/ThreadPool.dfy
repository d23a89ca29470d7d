/** The pool of loops and its round-robin cursor. */
module ThreadPool {
  import Modulo

  type LoopRef = nat

  /** The cursor after one pick among n loops. */
  function Advance(cursor: nat, n: nat): nat {
    if cursor + 1 >= n then 0 else cursor + 1
  }

  /** The positions picked by m consecutive calls from a cursor. */
  function Picks(cursor: nat, n: nat, m: nat): seq<nat>
    decreases m
  {
    if m == 0 then [] else [cursor] + Picks(Advance(cursor, n), n, m - 1)
  }

  function Times(i: nat, picks: seq<nat>): nat {
    if picks == [] then 0 else (if picks[0] == i then 1 else 0) + Times(i, picks[1..])
  }

  /** How far position i is ahead of the cursor, going round. */
  function Ahead(cursor: nat, n: nat, i: nat): nat
    requires cursor < n && i < n
  {
    if cursor <= i then i - cursor else i + n - cursor
  }

  /** How often a position that is d ahead is reached in m picks. */
  function Share(m: nat, n: nat, d: nat): nat
    requires n > 0
  {
    m / n + (if d < m % n then 1 else 0)
  }

  lemma ShareStep(m: nat, n: nat, d: nat)
    requires m > 0 && d < n
    ensures d > 0 ==> Share(m, n, d) == Share(m - 1, n, d - 1)
    ensures d == 0 ==> Share(m, n, d) == 1 + Share(m - 1, n, n - 1)
  {
    var q, r := (m - 1) / n, (m - 1) % n;
    assert m - 1 == q * n + r;
    Modulo.Unique(n, q, r);
    if r + 1 == n {
      assert m == (q + 1) * n + 0;
      Modulo.Unique(n, q + 1, 0);
    } else {
      assert m == q * n + (r + 1);
      Modulo.Unique(n, q, r + 1);
    }
  }

  /** Fairness over every window: from any cursor, m consecutive calls pick position i exactly
      floor(m / n) times, and once more if it lies within the remainder ahead of the cursor. */
  lemma {:induction false} RoundRobinFair(cursor: nat, n: nat, m: nat, i: nat)
    requires cursor < n && i < n
    ensures Times(i, Picks(cursor, n, m)) == Share(m, n, Ahead(cursor, n, i))
    ensures m / n <= Times(i, Picks(cursor, n, m)) <= (m + n - 1) / n
    decreases m
  {
    if m == 0 {
      Modulo.Unique(n, 0, 0);
    } else {
      var next := Advance(cursor, n);
      RoundRobinFair(next, n, m - 1, i);
      ShareStep(m, n, Ahead(cursor, n, i));
      assert Picks(cursor, n, m)[1..] == Picks(next, n, m - 1);
    }
    CeilingBound(m, n, Ahead(cursor, n, i));
  }

  lemma CeilingBound(m: nat, n: nat, d: nat)
    requires n > 0
    ensures m / n <= Share(m, n, d) <= (m + n - 1) / n
  {
    var q, r := m / n, m % n;
    assert m == q * n + r;
    if r == 0 {
      assert m + n - 1 == q * n + (n - 1);
      Modulo.Unique(n, q, n - 1);
    } else {
      assert m + n - 1 == (q + 1) * n + (r - 1);
      Modulo.Unique(n, q + 1, r - 1);
    }
  }

  /** The cursor is the number of picks modulo n, so the k-th pick is position k modulo n. */
  lemma {:induction false} PickIsModulo(k: nat, n: nat, m: nat, j: nat)
    requires n > 0 && j < m
    ensures |Picks(k % n, n, m)| == m && Picks(k % n, n, m)[j] == (k + j) % n
    decreases m
  {
    PicksLength(k % n, n, m);
    if j > 0 {
      Modulo.Successor(k, n);
      PickIsModulo(k + 1, n, m - 1, j - 1);
    }
  }

  lemma {:induction false} PicksLength(cursor: nat, n: nat, m: nat)
    ensures |Picks(cursor, n, m)| == m
    decreases m
  {
    if m > 0 {
      PicksLength(Advance(cursor, n), n, m - 1);
    }
  }

  /** The loops `getNextLoop` can return: the pool's, or the base loop when the pool is empty. */
  function Targets(loops: seq<LoopRef>, baseLoop: LoopRef): (t: seq<LoopRef>)
    ensures loops != [] ==> |t| == |loops| && forall i | 0 <= i < |t| :: t[i] == loops[i]
    ensures loops == [] ==> |t| == 1 && t[0] == baseLoop
  {
    if loops == [] then [baseLoop] else loops
  }

  class EventLoopThreadpool {
    const baseLoop: LoopRef
    var started: bool
    var threadNum: int
    var next: nat
    var loops: seq<LoopRef>

    ghost predicate Valid()
      reads this
    {
      next == 0 || next < |loops|
    }

    constructor (baseLoop: LoopRef, threadNum: int)
      ensures Valid() && this.baseLoop == baseLoop && this.threadNum == threadNum
      ensures !started && next == 0 && loops == []
    {
      this.baseLoop := baseLoop;
      this.threadNum := threadNum;
      started, next, loops := false, 0, [];
    }

    /** Starts one thread per loop; `created` are the loops the new threads report back, in order. */
    method Start(created: seq<LoopRef>)
      requires Valid() && !started && loops == []
      requires |created| == if threadNum > 0 then threadNum else 0
      modifies this
      ensures Valid() && started && loops == created && next == old(next) && threadNum == old(threadNum)
    {
      started := true;
      var i := 0;
      while i < threadNum
        invariant 0 <= i <= |created| && loops == created[..i]
        invariant Valid() && started && next == old(next) && threadNum == old(threadNum)
      {
        loops := loops + [created[i]];
        i := i + 1;
      }
    }

    method GetNextLoop() returns (loop: LoopRef)
      requires Valid() && started
      modifies this`next
      ensures Valid()
      ensures loop == Targets(loops, baseLoop)[old(next)]
      ensures next == (if loops == [] then old(next) else Advance(old(next), |loops|))
      ensures loops == [] ==> loop == baseLoop
      ensures loops != [] ==> old(next) < |loops| && loop == loops[old(next)]
    {
      loop := baseLoop;
      if loops != [] {
        loop := loops[next];
        next := next + 1;
        if next >= |loops| {
          next := 0;
        }
      }
    }

    /** m consecutive calls return the loops at the positions `Picks` lists. */
    method NextLoops(m: nat) returns (chosen: seq<LoopRef>)
      requires Valid() && started
      modifies this`next
      ensures Valid() && |chosen| == m
      ensures forall j | 0 <= j < m ::
                j < |Picks(old(next), |Targets(loops, baseLoop)|, m)|
                && Picks(old(next), |Targets(loops, baseLoop)|, m)[j] < |Targets(loops, baseLoop)|
                && chosen[j] == Targets(loops, baseLoop)[Picks(old(next), |Targets(loops, baseLoop)|, m)[j]]
      ensures loops != [] ==> forall j | 0 <= j < m :: chosen[j] == loops[(old(next) + j) % |loops|]
      ensures loops == [] ==> forall j | 0 <= j < m :: chosen[j] == baseLoop
    {
      chosen := [];
      ghost var n := |Targets(loops, baseLoop)|;
      ghost var all := Picks(next, n, m);
      PicksLength(next, n, m);
      while |chosen| < m
        invariant Valid() && |chosen| <= m && next < n && |all| == m
        invariant all[|chosen|..] == Picks(next, n, m - |chosen|)
        invariant forall j | 0 <= j < |chosen| ::
                    all[j] < n && chosen[j] == Targets(loops, baseLoop)[all[j]]
      {
        assert all[|chosen|] == next && all[|chosen|..][1..] == all[|chosen| + 1..];
        var loop := GetNextLoop();
        chosen := chosen + [loop];
      }
      if loops != [] {
        forall j | 0 <= j < m
          ensures chosen[j] == loops[(old(next) + j) % |loops|]
        {
          Modulo.Unique(n, 0, old(next));
          PickIsModulo(old(next), n, m, j);
        }
      }
    }
  }
}
