/**
  The list of idle workers that a pool worker keeps between two calls of `balance_work`. A donation to a worker that is
  shut down throws, so that the list is not cleared and the next call appends to it.
 */
module DonorList {
  import opened IdleWorkers

  // A call of balance_work: the size of the private queue, what find_idle_workers appends, and who is shut down.
  datatype Call = Call(tasks: nat, found: seq<nat>, stopped: set<nat>)

  // The call gets as far as the search, in a pool of n workers.
  predicate Searches(c: Call, n: nat) {
    c.tasks >= 2 && n >= 2
  }

  // find_idle_workers returns at most the number of workers that it is asked for.
  predicate Possible(c: Call, n: nat) {
    Searches(c, n) ==> |c.found| <= Min(n - 1, c.tasks - 1)
  }

  predicate Hits(targets: seq<nat>, stopped: set<nat>) {
    exists i :: 0 <= i < |targets| && targets[i] in stopped
  }

  predicate Throws(list: seq<nat>, c: Call, n: nat) {
    Searches(c, n) && Hits(list + c.found, c.stopped)
  }

  // m_idle_worker_list after the call.
  function After(list: seq<nat>, c: Call, n: nat): seq<nat> {
    if !Searches(c, n) then list else if Throws(list, c, n) then list + c.found else []
  }

  // The assertion that there are no more idle workers than tasks.
  predicate AssertionHolds(list: seq<nat>, c: Call, n: nat) {
    Searches(c, n) ==> |list + c.found| <= c.tasks
  }

  class Donor {
    const poolSize: nat
    var list: seq<nat>            // m_idle_worker_list

    constructor (poolSize: nat)
      ensures list == [] && this.poolSize == poolSize
    {
      this.poolSize := poolSize;
      list := [];
    }

    /** Donates in list order until a worker turns out to be shut down. */
    method BalanceWork(c: Call) returns (threw: bool, delivered: seq<nat>)
      modifies this
      ensures list == After(old(list), c, poolSize) && threw == Throws(old(list), c, poolSize)
      ensures Searches(c, poolSize) ==> delivered <= old(list) + c.found && !Hits(delivered, c.stopped)
      ensures threw ==> |delivered| < |list| && list[|delivered|] in c.stopped
      ensures !threw ==> delivered == if Searches(c, poolSize) then old(list) + c.found else []
    {
      delivered := [];
      if c.tasks < 2 || poolSize < 2 {
        return false, [];
      }
      list := list + c.found;
      for i := 0 to |list|
        invariant list == old(list) + c.found && delivered == list[..i] && !Hits(delivered, c.stopped)
      {
        if list[i] in c.stopped {
          return true, delivered;
        }
        delivered := delivered + [list[i]];
      }
      list := [];
      return false, delivered;
    }
  }

  // ---------- All calls of a worker, over the lives of all its threads ----------

  function Run(calls: seq<Call>, n: nat): seq<nat> {
    if |calls| == 0 then [] else After(Run(calls[..|calls| - 1], n), calls[|calls| - 1], n)
  }

  predicate Threw(calls: seq<Call>, n: nat, i: nat)
    requires i < |calls|
  {
    Throws(Run(calls[..i], n), calls[i], n)
  }

  // A worker that is shut down stays so.
  predicate Lasting(calls: seq<Call>) {
    forall i, j :: 0 <= i < j < |calls| ==> calls[i].stopped <= calls[j].stopped
  }

  lemma {:induction false} HitsMore(targets: seq<nat>, more: seq<nat>, stopped: set<nat>, stopped': set<nat>)
    requires Hits(targets, stopped) && stopped <= stopped'
    ensures Hits(targets + more, stopped')
  {
    var i :| 0 <= i < |targets| && targets[i] in stopped;
    assert (targets + more)[i] == targets[i];
  }

  lemma {:induction false} RunStep(calls: seq<Call>, n: nat, k: nat)
    requires k < |calls|
    ensures Run(calls[..k + 1], n) == After(Run(calls[..k], n), calls[k], n)
  {
    assert calls[..k + 1][..k] == calls[..k];
  }

  // What the searches of calls i to k - 1 returned.
  function FoundSince(calls: seq<Call>, n: nat, i: nat, k: nat): seq<nat>
    requires k <= |calls|
    decreases k
  {
    if k <= i then []
    else FoundSince(calls, n, i, k - 1) + if Searches(calls[k - 1], n) then calls[k - 1].found else []
  }

  lemma {:induction false} FoundAtOnce(calls: seq<Call>, n: nat, i: nat)
    requires i < |calls| && Searches(calls[i], n)
    ensures FoundSince(calls, n, i, i + 1) == calls[i].found
  {
    assert FoundSince(calls, n, i, i) == [];
    assert [] + calls[i].found == calls[i].found;
  }

  lemma {:induction false} StaleStep(calls: seq<Call>, n: nat, i: nat, k: nat)
    requires Lasting(calls) && i < k < |calls| && Hits(Run(calls[..k], n), calls[i].stopped)
    ensures Searches(calls[k], n) ==> Threw(calls, n, k)
    ensures Run(calls[..k + 1], n) == Run(calls[..k], n) + if Searches(calls[k], n) then calls[k].found else []
    ensures Hits(Run(calls[..k + 1], n), calls[i].stopped)
  {
    var list := Run(calls[..k], n);
    RunStep(calls, n, k);
    HitsMore(list, calls[k].found, calls[i].stopped, calls[k].stopped);
    HitsMore(list, calls[k].found, calls[i].stopped, calls[i].stopped);
  }

  /** Once a call has thrown, the list is never cleared: it holds all that was found since. */
  lemma {:induction false} StaleForEver(calls: seq<Call>, n: nat, i: nat, k: nat)
    requires Lasting(calls) && i < k <= |calls| && Threw(calls, n, i)
    ensures Run(calls[..k], n) == Run(calls[..i], n) + FoundSince(calls, n, i, k)
    ensures Hits(Run(calls[..k], n), calls[i].stopped)
    decreases k
  {
    if k == i + 1 {
      RunStep(calls, n, i);
      FoundAtOnce(calls, n, i);
    } else {
      StaleForEver(calls, n, i, k - 1);
      StaleStep(calls, n, i, k - 1);
      var more := if Searches(calls[k - 1], n) then calls[k - 1].found else [];
      Regroup(Run(calls[..i], n), FoundSince(calls, n, i, k - 1), more);
    }
  }

  lemma {:induction false} Regroup(a: seq<nat>, b: seq<nat>, c: seq<nat>)
    ensures (a + b) + c == a + (b + c)
  {
  }

  /** So every later call that gets as far as the search throws again. */
  lemma {:induction false} ThrowsForEver(calls: seq<Call>, n: nat, i: nat, k: nat)
    requires Lasting(calls) && i < k < |calls| && Threw(calls, n, i) && Searches(calls[k], n)
    ensures Threw(calls, n, k)
  {
    StaleForEver(calls, n, i, k);
    StaleStep(calls, n, i, k);
  }

  lemma {:induction false} NoThrowNoList(calls: seq<Call>, n: nat, k: nat)
    requires k <= |calls| && forall i :: 0 <= i < k ==> !Threw(calls, n, i)
    ensures Run(calls[..k], n) == []
  {
    if k > 0 {
      NoThrowNoList(calls, n, k - 1);
      RunStep(calls, n, k - 1);
      assert !Threw(calls, n, k - 1);
    }
  }

  /** The list is empty between calls exactly as long as no donation has met a worker that is shut down. */
  lemma {:induction false} ListIsStaleIffThrown(calls: seq<Call>, n: nat)
    requires Lasting(calls)
    ensures Run(calls, n) != [] <==> exists i :: 0 <= i < |calls| && Threw(calls, n, i)
  {
    assert calls[..|calls|] == calls;
    if i :| 0 <= i < |calls| && Threw(calls, n, i) {
      StaleForEver(calls, n, i, |calls|);
    } else {
      NoThrowNoList(calls, n, |calls|);
    }
  }

  predicate FirstThrow(calls: seq<Call>, n: nat, i: nat)
    requires i < |calls|
  {
    Threw(calls, n, i) && forall j :: 0 <= j < i ==> !Threw(calls, n, j)
  }

  lemma {:induction false} ListSinceFirstThrow(calls: seq<Call>, n: nat, i: nat, k: nat)
    requires Lasting(calls) && i < k <= |calls| && FirstThrow(calls, n, i)
    ensures Run(calls[..k], n) == FoundSince(calls, n, i, k)
  {
    NoThrowNoList(calls, n, i);
    StaleForEver(calls, n, i, k);
    assert [] + FoundSince(calls, n, i, k) == FoundSince(calls, n, i, k);
  }

  /** Until then the assertion holds, and the donor keeps a task. After the first throw, at call i, it holds at call k
      if and only if all that was found since call i is not more than the tasks of call k. */
  lemma {:induction false} AssertionHoldsIff(calls: seq<Call>, n: nat, k: nat)
    requires Lasting(calls) && k < |calls| && Possible(calls[k], n) && Searches(calls[k], n)
    ensures (forall i :: 0 <= i < k ==> !Threw(calls, n, i)) ==>
              AssertionHolds(Run(calls[..k], n), calls[k], n) && |Run(calls[..k], n) + calls[k].found| < calls[k].tasks
    ensures forall i :: 0 <= i < k && FirstThrow(calls, n, i) ==>
              (AssertionHolds(Run(calls[..k], n), calls[k], n) <==>
                 |FoundSince(calls, n, i, k)| + |calls[k].found| <= calls[k].tasks)
  {
    if forall i :: 0 <= i < k ==> !Threw(calls, n, i) { NoThrowNoList(calls, n, k); }
    forall i | 0 <= i < k && FirstThrow(calls, n, i) ensures Run(calls[..k], n) == FoundSince(calls, n, i, k) {
      ListSinceFirstThrow(calls, n, i, k);
    }
  }

  /** And it may fail: a donor with four tasks meets a worker that is shut down, and is started again with two. */
  lemma {:induction false} StaleListBreaksAssertion()
    ensures var calls := [Call(4, [1, 2, 3], {3}), Call(2, [], {3})];
            && Lasting(calls) && Possible(calls[0], 4) && Possible(calls[1], 4) && Threw(calls, 4, 0)
            && !AssertionHolds(Run(calls[..1], 4), calls[1], 4)
  {
    var calls := [Call(4, [1, 2, 3], {3}), Call(2, [], {3})];
    assert calls[..0] == [] && calls[..1] == [calls[0]];
    assert ([] + [1, 2, 3])[2] == 3;
    assert Throws([], calls[0], 4);
    RunStep(calls, 4, 0);
    assert Run(calls[..1], 4) == [1, 2, 3];
  }
}
