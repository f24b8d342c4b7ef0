/** The round-robin choice of EventLoopThreadPool.cpp. */
module Pools {
  /** The cursor after one more call, with `k` sub-loops. */
  function NextCursor(k: nat, next: nat): nat {
    if k == 0 then next else if next + 1 >= k then 0 else next + 1
  }

  /** The loop a call returns: the base loop when there are no sub-loops. */
  function Pick<L>(base: L, loops: seq<L>, next: nat): L
    requires loops != [] ==> next < |loops|
  {
    if loops == [] then base else loops[next]
  }

  /** The cursor after `n` calls from the start. */
  function Cursor(k: nat, n: nat): nat {
    if n == 0 then 0 else NextCursor(k, Cursor(k, n - 1))
  }

  lemma MulGap(a: int, b: int, k: nat)
    requires a > b
    ensures a * k >= b * k + k
  {
    assert (a - b - 1) * k >= 0;
    assert (a - b - 1) * k == a * k - b * k - k;
  }

  lemma DivModUnique(n: nat, k: nat, q: nat, r: nat)
    requires n == q * k + r && r < k
    ensures n / k == q && n % k == r
  {
    var p := n / k;
    assert n == p * k + n % k;
    if q > p {
      MulGap(q, p, k);
    } else if q < p {
      MulGap(p, q, k);
    }
  }

  lemma DivModNext(n: nat, k: nat)
    requires k > 0
    ensures (n + 1) % k == NextCursor(k, n % k)
    ensures (n + 1) / k == n / k + (if n % k + 1 == k then 1 else 0)
  {
    if n % k + 1 == k {
      assert (n / k + 1) * k == n / k * k + k;
      DivModUnique(n + 1, k, n / k + 1, 0);
    } else {
      DivModUnique(n + 1, k, n / k, n % k + 1);
    }
  }

  lemma {:induction false} CursorWithoutLoops(n: nat)
    ensures Cursor(0, n) == 0
  {
    if n > 0 {
      CursorWithoutLoops(n - 1);
    }
  }

  /** Call number `n`, from zero, finds the cursor at n mod k, which is in range. */
  lemma {:induction false} CursorIsModulo(k: nat, n: nat)
    requires k > 0
    ensures Cursor(k, n) == n % k < k
  {
    if n > 0 {
      CursorIsModulo(k, n - 1);
      DivModNext(n - 1, k);
    }
  }

  /** How many of the first `n` calls chose sub-loop `j`. */
  function Chosen(k: nat, n: nat, j: nat): nat {
    if n == 0 then 0 else Chosen(k, n - 1, j) + (if Cursor(k, n - 1) == j then 1 else 0)
  }

  /** Fairness: after any number of calls each sub-loop was chosen floor(n/k) times, or once
      more if its turn in the current round has come. */
  lemma {:induction false} RoundRobinIsFair(k: nat, n: nat, j: nat)
    requires j < k
    ensures Chosen(k, n, j) == n / k + (if j < n % k then 1 else 0)
  {
    if n == 0 {
      DivModUnique(0, k, 0, 0);
    } else {
      RoundRobinIsFair(k, n - 1, j);
      CursorIsModulo(k, n - 1);
      DivModNext(n - 1, k);
    }
  }

  class EventLoopThreadPool<L> {
    const baseLoop: L
    const numThreads: nat
    var started: bool
    var loops: seq<L>
    var next: nat
    ghost var calls: nat

    /** `calls` counts the calls of GetNextLoop since the pool was started. */
    ghost predicate Valid()
      reads this
    {
      next == Cursor(|loops|, calls) && (loops != [] ==> next < |loops|)
    }

    constructor (baseLoop: L, numThreads: nat)
      ensures Valid() && loops == [] && calls == 0 && !started
      ensures this.baseLoop == baseLoop && this.numThreads == numThreads
    {
      this.baseLoop, this.numThreads := baseLoop, numThreads;
      started, loops, next, calls := false, [], 0, 0;
    }

    /** `made` are the loops that the new threads publish, in creation order. */
    method Start(made: seq<L>)
      requires Valid() && !started && loops == [] && |made| == numThreads
      modifies this
      ensures Valid() && started && loops == made && calls == 0
    {
      CursorWithoutLoops(calls);
      started, calls := true, 0;
      for i := 0 to numThreads
        invariant started && next == 0 && calls == 0
        invariant loops == made[..i]
      {
        loops := loops + [made[i]];
      }
    }

    /** The call returns the base loop, or the sub-loop whose turn it is. */
    method GetNextLoop() returns (loop: L)
      requires Valid()
      modifies this`next, this`calls
      ensures Valid() && calls == old(calls) + 1 && next == NextCursor(|loops|, old(next))
      ensures loop == old(Pick(baseLoop, loops, next))
      ensures loops == [] ==> loop == baseLoop
      ensures loops != [] ==> loop == loops[old(calls) % |loops|]
    {
      loop := baseLoop;
      if loops != [] {
        CursorIsModulo(|loops|, calls);
        CursorIsModulo(|loops|, calls + 1);
        loop := loops[next];
        next := next + 1;
        if next >= |loops| {
          next := 0;
        }
      }
      calls := calls + 1;
    }
  }
}
