/** The pool of I/O loops: a server takes the loop of each new connection from it in turn. */
module EventLoopThreadPool {
  import opened Common

  type LoopId = nat

  /** The base loop, the configured number of threads, the turn, and the loops started. */
  datatype Pool = Pool(base: LoopId, count: int, next: nat, loops: seq<LoopId>)

  /** One call of getNextLoop; None is the out_of_range of loops_.at. */
  function Pick(p: Pool): (Option<LoopId>, Pool) {
    if p.loops == [] then (Some(p.base), p)
    else
      var turn := if p.next == p.count then 0 else p.next;
      (if turn < |p.loops| then Some(p.loops[turn]) else None, p.(next := turn + 1))
  }

  function After(p: Pool, calls: nat): Pool
    decreases calls
  {
    if calls == 0 then p else After(Pick(p).1, calls - 1)
  }

  /** The answer to the call that follows that many others. */
  function Answer(p: Pool, calls: nat): Option<LoopId> {
    Pick(After(p, calls)).0
  }

  class EventLoopThreadPool {
    const baseLoop: LoopId
    var numThreads: int
    var next: nat
    var started: bool
    var loops: seq<LoopId>

    ghost function View(): Pool
      reads this
    {
      Pool(baseLoop, numThreads, next, loops)
    }

    constructor (base: LoopId)
      ensures View() == Pool(base, 0, 0, []) && !started
    {
      baseLoop, numThreads, next, started, loops := base, 0, 0, false, [];
    }

    method SetThreadNum(n: int)
      modifies `numThreads
      ensures View() == old(View()).(count := n)
    {
      numThreads := n;
    }

    /** start; made are the loops the new threads report, in order. */
    method Start(made: seq<LoopId>)
      requires !started && |made| == if numThreads < 0 then 0 else numThreads
      modifies `started, `loops
      ensures started && View() == old(View()).(loops := old(loops) + made)
    {
      started := true;
      var i := 0;
      while i < numThreads
        invariant 0 <= i <= |made| && started
        invariant loops == old(loops) + made[..i]
      {
        loops := loops + [made[i]];
        i := i + 1;
      }
    }

    method GetNextLoop() returns (loop: Option<LoopId>)
      modifies `next
      ensures (loop, View()) == Pick(old(View()))
    {
      loop := Some(baseLoop);
      if loops != [] {
        if next == numThreads { next := 0; }
        loop := if next < |loops| then Some(loops[next]) else None;
        next := next + 1;
      }
    }
  }

  // ----- Turns -----

  function Mod(x: nat, n: nat): (r: nat)
    requires n > 0
    ensures r < n && (x < n ==> r == x)
  {
    x % n
  }

  lemma ModMinus(x: nat, n: nat)
    requires 0 < n <= x
    ensures Mod(x, n) == Mod(x - n, n)
  {
    var q := x / n - 1 - (x - n) / n;
    assert q * n + (x % n - (x - n) % n) == 0;
    assert q == 0;
  }

  lemma {:induction false} AfterTurn(p: Pool, calls: nat)
    requires 1 <= p.count <= |p.loops| && p.next <= p.count
    ensures After(p, calls).(next := p.next) == p
    ensures After(p, calls).next <= p.count
    ensures Mod(After(p, calls).next, p.count) == Mod(p.next + calls, p.count)
    decreases calls
  {
    hide Mod;
    if calls > 0 {
      var q := Pick(p).1;
      AfterTurn(q, calls - 1);
      if p.next == p.count {
        ModMinus(p.next + calls, p.count);
      }
    }
  }

  /** The answers go round the first count loops. */
  lemma RoundRobin(p: Pool, calls: nat)
    requires 1 <= p.count <= |p.loops| && p.next <= p.count
    ensures Answer(p, calls) == Some(p.loops[Mod(p.next + calls, p.count)])
  {
    hide Mod;
    AfterTurn(p, calls);
    var next := After(p, calls).next;
    if next == p.count {
      ModMinus(next, p.count);
    }
  }

  lemma {:induction false} Shift(x: nat, d: nat, n: nat)
    requires d < n
    ensures Mod(x + d, n) == if Mod(x, n) + d < n then Mod(x, n) + d else Mod(x, n) + d - n
    decreases x
  {
    hide Mod;
    if x >= n {
      Shift(x - n, d, n);
      ModMinus(x, n);
      ModMinus(x + d, n);
      assert (x + d) - n == (x - n) + d;
    } else if x + d >= n {
      ModMinus(x + d, n);
    }
  }

  predicate Distinct(loops: seq<LoopId>) {
    forall i, j | 0 <= i < j < |loops| :: loops[i] != loops[j]
  }

  /** Among any count consecutive calls, each of those loops is the answer to exactly one. */
  lemma FairShare(p: Pool, from: nat, turn: nat) returns (call: nat)
    requires 1 <= p.count <= |p.loops| && p.next <= p.count && turn < p.count && Distinct(p.loops)
    ensures from <= call < from + p.count && Answer(p, call) == Some(p.loops[turn])
    ensures forall c | from <= c < from + p.count && Answer(p, c) == Some(p.loops[turn]) :: c == call
  {
    hide Mod;
    hide Answer;
    var n, start := p.count, Mod(p.next + from, p.count);
    call := from + if turn >= start then turn - start else turn - start + n;
    forall c: nat | from <= c < from + n
      ensures var ahead := start + (c - from); Answer(p, c) == Some(p.loops[if ahead < n then ahead else ahead - n])
    {
      Shift(p.next + from, c - from, n);
      assert p.next + c == p.next + from + (c - from);
      RoundRobin(p, c);
    }
  }

  /** Otherwise the turn passes the last loop without being reset, and a call fails. */
  lemma {:induction false} RunsOut(p: Pool) returns (calls: nat)
    requires p.loops != [] && !(1 <= p.count <= |p.loops| && p.next <= p.count)
    ensures Answer(p, calls) == None
    decreases if p.next == p.count then |p.loops| + 1 else |p.loops| - p.next
  {
    if p.next >= |p.loops| && p.next != p.count {
      calls := 0;
    } else {
      var k := RunsOut(Pick(p).1);
      calls := k + 1;
    }
  }

  lemma {:induction false} NoLoops(p: Pool, calls: nat)
    requires p.loops == []
    ensures Answer(p, calls) == Some(p.base)
    decreases calls
  {
    if calls > 0 {
      NoLoops(p, calls - 1);
    }
  }

  /** No call ever fails exactly when there are no threads, or setThreadNum has not been used since
      the start to set less than the turn, less than one or more than there are. */
  lemma NeverOutOfRangeExactly(p: Pool)
    ensures (forall calls: nat :: Answer(p, calls).Some?) <==>
            p.loops == [] || (1 <= p.count <= |p.loops| && p.next <= p.count)
  {
    if p.loops == [] {
      forall calls: nat ensures Answer(p, calls).Some? { NoLoops(p, calls); }
    } else if 1 <= p.count <= |p.loops| && p.next <= p.count {
      forall calls: nat ensures Answer(p, calls).Some? { RoundRobin(p, calls); }
    } else {
      var calls := RunsOut(p);
      assert Answer(p, calls).None?;
    }
  }
}
