/** How a queue of tasks is cut into blocks of nearly equal size. */
module Donation {

  // Where block number j begins when each block gets `share` tasks and the first `extra` one more.
  function BlockStart(share: nat, extra: nat, j: nat): (begin: nat) {
    if j == 0 then 0 else BlockStart(share, extra, j - 1) + share + (if j - 1 < extra then 1 else 0)
  }

  lemma {:induction false} BlockStartClosed(share: nat, extra: nat, j: nat)
    ensures BlockStart(share, extra, j) == j * share + (if j < extra then j else extra)
  {
    if j > 0 {
      BlockStartClosed(share, extra, j - 1);
      assert (j - 1) * share + share == j * share;
    }
  }

  lemma {:induction false} BlockStartMonotone(share: nat, extra: nat, i: nat, j: nat)
    requires i <= j
    ensures BlockStart(share, extra, i) <= BlockStart(share, extra, j)
    decreases j - i
  {
    if i < j { BlockStartMonotone(share, extra, i, j - 1); }
  }

  // The first k blocks of a queue.
  function Blocks<T>(queue: seq<T>, share: nat, extra: nat, k: nat): (blocks: seq<seq<T>>)
    requires BlockStart(share, extra, k) <= |queue|
    ensures |blocks| == k
  {
    if k == 0 then []
    else Blocks(queue, share, extra, k - 1) + [queue[BlockStart(share, extra, k - 1)..BlockStart(share, extra, k)]]
  }

  function Flatten<T>(blocks: seq<seq<T>>): seq<T> {
    if |blocks| == 0 then [] else Flatten(blocks[..|blocks| - 1]) + blocks[|blocks| - 1]
  }

  lemma {:induction false} BlocksTile<T>(queue: seq<T>, share: nat, extra: nat, k: nat)
    requires BlockStart(share, extra, k) <= |queue|
    ensures Flatten(Blocks(queue, share, extra, k)) == queue[..BlockStart(share, extra, k)]
    ensures forall j :: 0 <= j < k ==>
              |Blocks(queue, share, extra, k)[j]| == share + (if j < extra then 1 else 0)
  {
    if k > 0 {
      BlocksTile(queue, share, extra, k - 1);
      var front := Blocks(queue, share, extra, k - 1);
      var begin, end := BlockStart(share, extra, k - 1), BlockStart(share, extra, k);
      assert Blocks(queue, share, extra, k)[..k - 1] == front;
      assert queue[..begin] + queue[begin..end] == queue[..end];
    }
  }

  lemma {:induction false} DivisionBounds(count: nat, parts: nat)
    requires parts > 0
    ensures 0 <= count - count / parts * parts < parts
    ensures count >= parts ==> count / parts >= 1
  {
    assert count == count / parts * parts + count % parts;
  }

  // Cutting `count` tasks into `parts` blocks: the size of a block, and the tasks left over.
  function Share(count: nat, parts: nat): nat
    requires parts > 0
  {
    count / parts
  }

  function Extra(count: nat, parts: nat): nat
    requires parts > 0
  {
    DivisionBounds(count, parts);
    count - Share(count, parts) * parts
  }

  lemma {:induction false} PlanBounds(count: nat, parts: nat, k: nat)
    requires 0 < parts <= count && (k == parts || k == parts - 1)
    ensures Share(count, parts) >= 1 && Extra(count, parts) < parts
    ensures BlockStart(Share(count, parts), Extra(count, parts), k) ==
            if k == parts then count else count - Share(count, parts)
  {
    var share, extra := Share(count, parts), Extra(count, parts);
    DivisionBounds(count, parts);
    BlockStartClosed(share, extra, k);
    assert share * parts == parts * share;
    assert k == parts - 1 ==> k * share == parts * share - share;
  }

  // The first k blocks when `queue` is cut into `parts` blocks.
  function Cut<T>(queue: seq<T>, parts: nat, k: nat): (blocks: seq<seq<T>>)
    requires 0 < parts <= |queue| && (k == parts || k == parts - 1)
    ensures |blocks| == k
  {
    PlanBounds(|queue|, parts, k);
    Blocks(queue, Share(|queue|, parts), Extra(|queue|, parts), k)
  }

  // What is left of `queue` when the last block is not given away.
  function Kept<T>(queue: seq<T>, parts: nat): seq<T>
    requires 0 < parts <= |queue|
  {
    PlanBounds(|queue|, parts, parts - 1);
    queue[BlockStart(Share(|queue|, parts), Extra(|queue|, parts), parts - 1)..]
  }

  /** balance_work's plan: with k idle workers and more than k tasks, k blocks whose sizes differ by at
      most one, followed by the floor(T / (k + 1)) >= 1 tasks that the donor keeps, make up the queue. */
  lemma {:induction false} DonationPlan<T>(queue: seq<T>, k: nat)
    requires 0 < k < |queue|
    ensures Flatten(Cut(queue, k + 1, k)) + Kept(queue, k + 1) == queue
    ensures |Kept(queue, k + 1)| == |queue| / (k + 1) >= 1
    ensures var blocks, share := Cut(queue, k + 1, k), |queue| / (k + 1);
            forall j :: 0 <= j < |blocks| ==> share <= |blocks[j]| <= share + 1
  {
    PlanBounds(|queue|, k + 1, k);
    BlocksTile(queue, Share(|queue|, k + 1), Extra(|queue|, k + 1), k);
  }

  /** The bulk enqueue's plan: n blocks whose sizes differ by at most one make up the tasks. */
  lemma {:induction false} BulkPlan<T>(tasks: seq<T>, n: nat)
    requires 0 < n <= |tasks|
    ensures Flatten(Cut(tasks, n, n)) == tasks
    ensures var blocks, share := Cut(tasks, n, n), |tasks| / n;
            forall j :: 0 <= j < |blocks| ==> share <= |blocks[j]| <= share + 1
  {
    PlanBounds(|tasks|, n, n);
    BlocksTile(tasks, Share(|tasks|, n), Extra(|tasks|, n), n);
    assert tasks[..|tasks|] == tasks;
  }
}

/** The queues of one pool, and the two operations that cut a queue into blocks. */
module ThreadPool {
  import opened Collections
  import opened Donation
  import opened IdleFlags
  import opened IdleWorkers

  const CURSORS := 0x1_0000_0000_0000_0000   // the round robin cursor is a size_t

  // The tasks sent to worker w when task i goes to targets[i].
  function Picked<T>(tasks: seq<T>, targets: seq<nat>, w: nat): seq<T>
    requires |tasks| == |targets|
  {
    if |tasks| == 0 then []
    else
      var last := |tasks| - 1;
      Picked(tasks[..last], targets[..last], w) + if targets[last] == w then [tasks[last]] else []
  }

  lemma {:induction false} PickedAppend<T>(tasks: seq<T>, targets: seq<nat>, task: T, target: nat, w: nat)
    requires |tasks| == |targets|
    ensures Picked(tasks + [task], targets + [target], w) ==
            Picked(tasks, targets, w) + if target == w then [task] else []
  {
    assert (tasks + [task])[..|tasks|] == tasks && (targets + [target])[..|tasks|] == targets;
  }

  function Sum(count: nat -> nat, n: nat): nat {
    if n == 0 then 0 else Sum(count, n - 1) + count(n - 1)
  }

  lemma {:induction false} SumStep(before: nat -> nat, after: nat -> nat, n: nat, target: nat, more: nat)
    requires forall w: nat :: w < n ==> after(w) == before(w) + if w == target then more else 0
    ensures Sum(after, n) == Sum(before, n) + if target < n then more else 0
  {
    if n > 0 { SumStep(before, after, n - 1, target, more); }
  }

  // How often each worker gets task x.
  function Counts<T(==)>(x: T, tasks: seq<T>, targets: seq<nat>): nat -> nat
    requires |tasks| == |targets|
  {
    w => multiset(Picked(tasks, targets, w))[x]
  }

  // How often the first n workers get it altogether.
  function PickedBy<T(==)>(x: T, tasks: seq<T>, targets: seq<nat>, n: nat): nat
    requires |tasks| == |targets|
  {
    Sum(Counts(x, tasks, targets), n)
  }

  lemma {:induction false} CountAppend<T>(x: T, tasks: seq<T>, task: T)
    ensures multiset(tasks + [task])[x] == multiset(tasks)[x] + if task == x then 1 else 0
  { }

  lemma {:induction false} CountPickedAppend<T>(x: T, tasks: seq<T>, targets: seq<nat>, task: T, target: nat, w: nat)
    requires |tasks| == |targets|
    ensures multiset(Picked(tasks + [task], targets + [target], w))[x] ==
            multiset(Picked(tasks, targets, w))[x] + if w == target then (if task == x then 1 else 0) else 0
  {
    PickedAppend(tasks, targets, task, target, w);
    CountAppend(x, Picked(tasks, targets, w), task);
  }

  lemma {:induction false} PickedByAppend<T>(x: T, tasks: seq<T>, targets: seq<nat>, task: T, target: nat, n: nat)
    requires |tasks| == |targets|
    ensures PickedBy(x, tasks + [task], targets + [target], n) ==
            PickedBy(x, tasks, targets, n) + if target < n && task == x then 1 else 0
  {
    var before, after := Counts(x, tasks, targets), Counts(x, tasks + [task], targets + [target]);
    forall w: nat ensures after(w) == before(w) + if w == target then (if task == x then 1 else 0) else 0 {
      CountPickedAppend(x, tasks, targets, task, target, w);
    }
    SumStep(before, after, n, target, if task == x then 1 else 0);
  }

  // The cursor after k more round robin choices.
  function Cursor(cursor: nat, k: nat): nat {
    if k == 0 then cursor else (Cursor(cursor, k - 1) + 1) % CURSORS
  }

  // Where k tasks go one by one when the search finds `found`: one to each idle worker, then round robin.
  function Targets(found: seq<nat>, cursor: nat, n: nat, k: nat): (targets: seq<nat>)
    requires n > 0
    ensures |targets| == k
  {
    if k == 0 then []
    else Targets(found, cursor, n, k - 1) + [if k <= |found| then found[k - 1] else Cursor(cursor, k - 1 - |found|) % n]
  }

  // What is left of a search, and of the cursor, after k tasks.
  function Rest(found: seq<nat>, k: nat): seq<nat> {
    if k <= |found| then found[k..] else []
  }

  function CursorAfter(found: seq<nat>, cursor: nat, k: nat): nat {
    if k <= |found| then cursor else Cursor(cursor, k - |found|)
  }

  /** Each task goes to one worker: what the workers get is what was enqueued. */
  lemma {:induction false} RoutingConservesTasks<T>(tasks: seq<T>, targets: seq<nat>, n: nat, x: T)
    requires |tasks| == |targets| && forall i :: 0 <= i < |targets| ==> targets[i] < n
    ensures PickedBy(x, tasks, targets, n) == multiset(tasks)[x]
  {
    if |tasks| == 0 {
      NothingPicked(x, tasks, targets, n);
    } else {
      var last := |tasks| - 1;
      var front, before := tasks[..last], targets[..last];
      assert tasks == front + [tasks[last]] && targets == before + [targets[last]];
      RoutingConservesTasks(front, before, n, x);
      PickedByAppend(x, front, before, tasks[last], targets[last], n);
      CountAppend(x, front, tasks[last]);
    }
  }

  lemma {:induction false} NothingPicked<T>(x: T, tasks: seq<T>, targets: seq<nat>, n: nat)
    requires |tasks| == |targets| == 0
    ensures PickedBy(x, tasks, targets, n) == 0
  {
    SumOfNothing(Counts(x, tasks, targets), n);
  }

  lemma {:induction false} SumOfNothing(count: nat -> nat, n: nat)
    requires forall w: nat :: w < n ==> count(w) == 0
    ensures Sum(count, n) == 0
  {
    if n > 0 { SumOfNothing(count, n - 1); }
  }

  lemma {:induction false} TargetsStep(found: seq<nat>, cursor: nat, n: nat, k: nat, target: nat)
    requires n > 0
    requires target == if Rest(found, k) != [] then Rest(found, k)[0] else CursorAfter(found, cursor, k) % n
    ensures Targets(found, cursor, n, k + 1) == Targets(found, cursor, n, k) + [target]
    ensures Rest(found, k + 1) == if Rest(found, k) != [] then Rest(found, k)[1..] else []
    ensures CursorAfter(found, cursor, k + 1) ==
            if Rest(found, k) != [] then CursorAfter(found, cursor, k)
            else (CursorAfter(found, cursor, k) + 1) % CURSORS
  { }

  lemma {:induction false} FoundIsAWorker(flags: seq<bool>, caller: int, hash: nat)
    requires -1 <= caller < |flags| && Search(flags, caller, hash) != []
    ensures var x := Search(flags, caller, hash)[0]; x < |flags| && flags[x] && x != caller
  {
    var x := Search(flags, caller, hash)[0];
    FoundContains(flags, if caller != -1 then caller else hash % |flags|, caller, |flags|, x);
  }

  lemma {:induction false} SearchAfterFirst(flags: seq<bool>, caller: int, hash: nat, x: nat)
    requires -1 <= caller < |flags| && Search(flags, caller, hash) != []
    requires Search(flags, caller, hash)[0] == x < |flags|
    ensures Search(flags[x := false], caller, hash) == Search(flags, caller, hash)[1..]
  {
    FoundAfterFirst(flags, if caller != -1 then caller else hash % |flags|, caller, |flags|, x);
  }

  // Worker w has received the tasks sent to it, in order.
  predicate Delivered<T(==)>(before: seq<seq<T>>, after: seq<seq<T>>, tasks: seq<T>, targets: seq<nat>) {
    && |after| == |before| && |tasks| == |targets|
    && (forall i :: 0 <= i < |targets| ==> targets[i] < |after|)
    && (forall w :: 0 <= w < |after| ==> after[w] == before[w] + Picked(tasks, targets, w))
  }

  lemma {:induction false} DeliveredStep<T>(first: seq<seq<T>>, before: seq<seq<T>>, after: seq<seq<T>>,
                                            tasks: seq<T>, targets: seq<nat>, task: T, target: nat)
    requires Delivered(first, before, tasks, targets) && target < |before|
    requires after == before[target := before[target] + [task]]
    ensures Delivered(first, after, tasks + [task], targets + [target])
  {
    forall w | 0 <= w < |after| ensures after[w] == first[w] + Picked(tasks + [task], targets + [target], w) {
      PickedAppend(tasks, targets, task, target, w);
    }
  }

  // The queues and the cursor after `tasks`, which began with the cursor at `first` and a search finding `found`.
  predicate Sent<T(==)>(before: seq<seq<T>>, after: seq<seq<T>>, tasks: seq<T>, targets: seq<nat>, n: nat,
                        found: seq<nat>, first: nat, cursor: nat) {
    && n > 0 && Delivered(before, after, tasks, targets)
    && targets == Targets(found, first, n, |tasks|) && cursor == CursorAfter(found, first, |tasks|)
  }

  lemma {:induction false} SentStep<T>(first: seq<seq<T>>, before: seq<seq<T>>, after: seq<seq<T>>, tasks: seq<T>,
                                       targets: seq<nat>, n: nat, found: seq<nat>, start: nat, cursor: nat, task: T,
                                       target: nat)
    requires Sent(first, before, tasks, targets, n, found, start, cursor) && target < |before|
    requires after == before[target := before[target] + [task]]
    requires target == if Rest(found, |tasks|) != [] then Rest(found, |tasks|)[0] else cursor % n
    ensures Sent(first, after, tasks + [task], targets + [target], n, found, start,
                 if Rest(found, |tasks|) != [] then cursor else (cursor + 1) % CURSORS)
    ensures Rest(found, |tasks| + 1) == if Rest(found, |tasks|) != [] then Rest(found, |tasks|)[1..] else []
  {
    TargetsStep(found, start, n, |tasks|, target);
    DeliveredStep(first, before, after, tasks, targets, task, target);
  }

  class Pool<Task> {
    var private: seq<seq<Task>>   // m_private_queue of each worker
    var public: seq<seq<Task>>    // m_public_queue of each worker
    var cursor: nat               // m_round_robin_cursor
    const idle: IdleWorkerSet     // m_idle_workers

    ghost predicate Valid()
      reads this, idle, idle.flags
    {
      |private| == |public| == idle.flags.Length && idle.Valid() && cursor < CURSORS
    }

    constructor (size: nat)
      ensures Valid() && |private| == size
      ensures fresh(idle) && fresh(idle.flags)
      ensures forall w :: 0 <= w < size ==> private[w] == [] && public[w] == []
    {
      private := seq(size, w => []);
      public := seq(size, w => []);
      cursor := 0;
      idle := new IdleWorkerSet(size);
    }

    // Worker targets[j] has received block j; the others have what they had.
    ghost predicate Received(before: seq<seq<Task>>, targets: seq<nat>, blocks: seq<seq<Task>>)
      reads this
    {
      && |public| == |before| && |blocks| == |targets|
      && (forall j :: 0 <= j < |targets| ==>
            targets[j] < |public| && public[targets[j]] == before[targets[j]] + blocks[j])
      && (forall w :: 0 <= w < |public| && w !in targets ==> public[w] == before[w])
    }

    // The idle workers that worker `me` may donate to: all but itself, one less than it has tasks.
    method ChooseTargets(me: nat) returns (targets: seq<nat>)
      requires Valid() && me < |private|
      modifies idle, idle.flags
      ensures Valid() && idle.Taken(old(idle.flags[..]), targets)
      ensures |targets| == if |private[me]| < 2 then 0
                           else Min(|Others(old(idle.flags[..]), me)|, Min(|private| - 1, |private[me]| - 1))
      ensures targets <= Found(old(idle.flags[..]), me, me, |private|)
      ensures Distinct(targets) && me !in targets && forall j :: 0 <= j < |targets| ==> targets[j] < |private|
    {
      targets := [];
      if |private[me]| < 2 {
        return;
      }
      var most := Min(|private| - 1, |private[me]| - 1);
      if most == 0 {
        return;
      }
      FullSearchFindsAll(idle.flags[..], me, me);
      targets := idle.FindIdleWorkers(me, most);
      forall j | 0 <= j < |targets| ensures targets[j] < |private| {
        FoundContains(old(idle.flags[..]), me, me, |private|, targets[j]);
        assert targets[j] == Found(old(idle.flags[..]), me, me, |private|)[j];
      }
    }

    /** Donates to the chosen workers. Donor and receivers end up with the blocks of DonationPlan and
        every other queue is untouched. */
    method BalanceWork(me: nat) returns (targets: seq<nat>)
      requires Valid() && me < |private|
      modifies this, idle, idle.flags
      ensures Valid()
      ensures |targets| == if |old(private[me])| < 2 then 0
                           else Min(|Others(old(idle.flags[..]), me)|, Min(|old(private)| - 1, |old(private[me])| - 1))
      ensures targets <= Found(old(idle.flags[..]), me, me, |private|) && me !in targets && Distinct(targets)
      ensures idle.Taken(old(idle.flags[..]), targets)
      ensures targets == [] ==> private == old(private) && public == old(public)
      ensures targets != [] ==>
                && |targets| < |old(private[me])|
                && private == old(private)[me := Kept(old(private[me]), |targets| + 1)]
                && Received(old(public), targets, Cut(old(private[me]), |targets| + 1, |targets|))
                && |public| == |old(public)| && |private| == |old(private)|
                && (forall w :: 0 <= w < |public| && w !in targets ==> public[w] == old(public)[w])
                && (forall j :: 0 <= j < |targets| ==>
                      && targets[j] < |public|
                      && public[targets[j]] ==
                         old(public)[targets[j]] + Cut(old(private[me]), |targets| + 1, |targets|)[j])
      ensures forall x :: 0 <= x < idle.flags.Length ==> idle.flags[x] == (old(idle.flags[x]) && x !in targets)
    {
      targets := ChooseTargets(me);
      if targets == [] {
        return;
      }
      var queue, parts := private[me], |targets| + 1;
      PlanBounds(|queue|, parts, |targets|);
      Donate(queue, targets, Share(|queue|, parts), Extra(|queue|, parts));
      private := private[me := Kept(queue, parts)];
    }

    /** Routes one task. A worker that appears empty keeps it; otherwise the first idle worker in probe order
        gets it, or, when there is none, the enqueuing worker, or the next worker round robin. `caller` is -1
        outside the pool; a worker that appears empty has an empty private queue. */
    method Enqueue(task: Task, caller: int, appearsEmpty: bool, hash: nat) returns (target: nat, local: bool)
      requires Valid() && -1 <= caller < |private| && |private| > 0
      requires appearsEmpty ==> caller >= 0 && private[caller] == []
      modifies this, idle, idle.flags
      ensures Valid() && |private| == |old(private)| && target < |private|
      ensures private == (if local then old(private)[target := old(private)[target] + [task]] else old(private))
      ensures public == (if local then old(public) else old(public)[target := old(public)[target] + [task]])
      ensures local ==> target == caller
      ensures local <==> caller >= 0 && (appearsEmpty || Others(old(idle.flags[..]), caller) == {})
      ensures !local && Others(old(idle.flags[..]), caller) != {} ==>
                var found := Search(old(idle.flags[..]), caller, hash);
                && found != [] && target == found[0] && cursor == old(cursor)
                && idle.flags[..] == old(idle.flags[..])[target := false]
      ensures !local && Others(old(idle.flags[..]), caller) == {} ==>
                && target == old(cursor) % |private| && cursor == (old(cursor) + 1) % CURSORS
                && idle.flags[..] == old(idle.flags[..])
    {
      SearchFindsAll(idle.flags[..], caller, hash);
      if appearsEmpty {
        private := private[caller := private[caller] + [task]];
        return caller, true;
      }
      var found := idle.FindIdleWorker(caller, hash);
      if found != -1 {
        FoundIsAWorker(old(idle.flags[..]), caller, hash);
        public := public[found := public[found] + [task]];
        return found, false;
      }
      if caller != -1 {
        private := private[caller := private[caller] + [task]];
        return caller, true;
      }
      target, local := cursor % |private|, false;
      cursor := (cursor + 1) % CURSORS;
      public := public[target := public[target] + [task]];
    }

    // A search from outside finds `found`.
    ghost predicate Finds(hash: nat, found: seq<nat>)
      reads idle, idle.flags
    {
      Search(idle.flags[..], -1, hash) == found
    }

    // An enqueue from outside, in terms of what the search finds.
    method EnqueueOutside(task: Task, hash: nat, ghost found: seq<nat>) returns (target: nat)
      requires Valid() && |private| > 0 && Finds(hash, found)
      modifies this, idle, idle.flags
      ensures Valid() && private == old(private)
      ensures target < |public| == |old(public)| && public == old(public)[target := old(public)[target] + [task]]
      ensures target == (if found != [] then found[0] else old(cursor) % |private|)
      ensures Finds(hash, if found != [] then found[1..] else [])
      ensures cursor == if found != [] then old(cursor) else (old(cursor) + 1) % CURSORS
    {
      ghost var flags := idle.flags[..];
      SearchFindsAll(flags, -1, hash);
      var local;
      target, local := Enqueue(task, -1, false, hash);
      if found != [] { SearchAfterFirst(flags, -1, hash, target); }
    }

    method EnqueueNext(task: Task, hash: nat, ghost before: seq<seq<Task>>, ghost tasks: seq<Task>,
                       ghost targets: seq<nat>, ghost found: seq<nat>, ghost first: nat)
      returns (target: nat)
      requires Valid() && |private| > 0 && Finds(hash, Rest(found, |tasks|))
      requires Sent(before, public, tasks, targets, |private|, found, first, cursor)
      modifies this, idle, idle.flags
      ensures Valid() && private == old(private) && Finds(hash, Rest(found, |tasks| + 1))
      ensures Sent(before, public, tasks + [task], targets + [target], |private|, found, first, cursor)
    {
      target := EnqueueOutside(task, hash, Rest(found, |tasks|));
      SentStep(before, old(public), public, tasks, targets, |private|, found, first, old(cursor), task, target);
    }

    /** Tasks enqueued one by one from outside: the idle workers get one each, in probe order, and the
        remaining tasks go round robin. */
    method EnqueueEach(tasks: seq<Task>, hash: nat) returns (targets: seq<nat>)
      requires Valid() && |private| > 0
      modifies this, idle, idle.flags
      ensures Valid() && private == old(private) && Delivered(old(public), public, tasks, targets)
      ensures |targets| == |tasks| && |public| == |old(public)|
      ensures forall w :: 0 <= w < |public| ==> public[w] == old(public)[w] + Picked(tasks, targets, w)
      ensures targets == Targets(Search(old(idle.flags[..]), -1, hash), old(cursor), |private|, |tasks|)
    {
      targets := [];
      ghost var found := Search(idle.flags[..], -1, hash);
      for k := 0 to |tasks|
        invariant Valid() && private == old(private) && Finds(hash, Rest(found, k))
        invariant Sent(old(public), public, tasks[..k], targets, |private|, found, old(cursor), cursor)
      {
        var target := EnqueueNext(tasks[k], hash, old(public), tasks[..k], targets, found, old(cursor));
        assert tasks[..k + 1] == tasks[..k] + [tasks[k]];
        targets := targets + [target];
      }
      assert tasks[..|tasks|] == tasks;
    }

    /** The bulk enqueue. Inside the pool the tasks join the worker's private queue. From outside, with at
        least one task per worker, worker w gets block w of BulkPlan; fewer tasks are enqueued one by one. */
    method EnqueueBulk(tasks: seq<Task>, caller: int, hash: nat) returns (targets: seq<nat>)
      requires Valid() && -1 <= caller < |private| && |private| > 0
      modifies this, idle, idle.flags
      ensures Valid()
      ensures caller >= 0 ==> private == old(private)[caller := old(private)[caller] + tasks] && public == old(public)
      ensures caller == -1 ==> private == old(private)
      ensures caller == -1 && |tasks| < |private| ==>
                && Delivered(old(public), public, tasks, targets)
                && targets == Targets(Search(old(idle.flags[..]), -1, hash), old(cursor), |private|, |tasks|)
      ensures caller == -1 && |tasks| >= |private| ==>
                && |public| == |private|
                && forall w :: 0 <= w < |public| ==> public[w] == old(public)[w] + Cut(tasks, |private|, |private|)[w]
    {
      targets := [];
      if caller != -1 {
        private := private[caller := private[caller] + tasks];
      } else if |tasks| < |private| {
        targets := EnqueueEach(tasks, hash);
      } else {
        EnqueueBlocks(tasks);
      }
    }

    method EnqueueBlocks(tasks: seq<Task>)
      requires Valid() && 0 < |private| <= |tasks|
      modifies this`public
      ensures Valid()
      ensures forall w :: 0 <= w < |public| ==> public[w] == old(public)[w] + Cut(tasks, |private|, |private|)[w]
    {
      var n := |private|;
      PlanBounds(|tasks|, n, n);
      var workers := seq(n, w requires 0 <= w < n => w);
      Donate(tasks, workers, Share(|tasks|, n), Extra(|tasks|, n));
      assert forall w :: 0 <= w < n ==> workers[w] == w;
    }

    // The loop of balance_work and of the bulk enqueue: hand the blocks to the workers in `targets`.
    method Donate(queue: seq<Task>, targets: seq<nat>, share: nat, extra: nat)
      requires BlockStart(share, extra, |targets|) <= |queue|
      requires Distinct(targets) && forall j :: 0 <= j < |targets| ==> targets[j] < |public|
      modifies this`public
      ensures Received(old(public), targets, Blocks(queue, share, extra, |targets|))
    {
      var begin, end, left := 0, share, extra;
      for j := 0 to |targets|
        invariant begin == BlockStart(share, extra, j) && end == begin + share
        invariant left == if j < extra then extra - j else 0
        invariant BlockStart(share, extra, j) <= |queue| && |public| == |old(public)|
        invariant Received(old(public), targets[..j], Blocks(queue, share, extra, j))
      {
        if left != 0 {
          end := end + 1;
          left := left - 1;
        }
        assert end == BlockStart(share, extra, j + 1);
        BlockStartMonotone(share, extra, j + 1, |targets|);
        var w := targets[j];
        assert w !in targets[..j];
        public := public[w := public[w] + queue[begin..end]];
        assert targets[..j + 1] == targets[..j] + [w];
        begin := end;
        end := end + share;
      }
      assert targets[..|targets|] == targets;
    }
  }
}

/**
  A whole pool under any interleaving, from the first task to the end of `shutdown`. Each region
  guarded by a worker's `m_lock`, each task and each step of a worker's shutdown is one action. How
  tasks are routed and how large a donation is do not matter here: any choice is a run.
 */
module PoolProtocol {

  datatype Worker =
    | Parked                      // m_idle: no thread, or its thread has returned
    | Waiting                     // top of drain_queue
    | Draining                    // top of drain_queue_impl's loop
    | Running(task: nat)

  datatype Stop = NotStopped | AtomicSet | AbortSet | Joined | Cleared

  datatype State = State(
    private: seq<seq<nat>>,
    public: seq<seq<nat>>,
    at: seq<Worker>,
    stop: seq<Stop>,              // thread_pool_worker::shutdown of each worker
    accepted: nat,                // accepted tasks; they are numbered 0, 1, ...
    ran: seq<nat>,                // tasks that were started
    destroyed: seq<nat>)          // tasks destroyed without being started

  datatype Action =
    | EnqueueForeign(w: nat, count: nat) | EnqueueLocal(w: nat, count: nat)
    | Swap(w: nat) | TimeOut(w: nat) | Donate(w: nat, target: nat, count: nat) | Pop(w: nat) | Finish(w: nat)
    | Shutdown(w: nat)

  function Initial(n: nat): State {
    State(seq(n, w => []), seq(n, w => []), seq(n, w => Parked), seq(n, w => NotStopped), 0, [], [])
  }

  predicate Shaped(s: State) {
    |s.private| == |s.public| == |s.at| == |s.stop|
  }

  function Run(s: State, actions: seq<Action>): (t: State)
    requires Shaped(s)
    ensures Shaped(t)
  {
    if |actions| == 0 then s
    else Next(Run(s, actions[..|actions| - 1]), actions[|actions| - 1])
  }

  function NewTasks(first: nat, count: nat): seq<nat> {
    seq(count, i requires 0 <= i < count => first + i)
  }

  // m_abort of a worker.
  predicate Aborted(stop: Stop) {
    stop == AbortSet || stop == Joined || stop == Cleared
  }

  // An enqueue starts a thread for a worker without one.
  function Started(at: Worker): Worker {
    if at == Parked then Waiting else at
  }

  function Next(s: State, a: Action): (t: State)
    requires Shaped(s)
    ensures Shaped(t)
  {
    if a.w >= |s.at| then s else
    var w := a.w;
    match a
    case EnqueueForeign(_, count) =>
      if Aborted(s.stop[w]) then s else         // throws runtime_shutdown
      var tasks := NewTasks(s.accepted, count);
      s.(public := s.public[w := s.public[w] + tasks], at := s.at[w := Started(s.at[w])],
         accepted := s.accepted + count)
    case EnqueueLocal(_, count) =>
      if !s.at[w].Running? || s.stop[w] != NotStopped then s else
      var tasks := NewTasks(s.accepted, count);
      s.(private := s.private[w := s.private[w] + tasks], accepted := s.accepted + count)
    case Swap(_) =>
      if s.at[w] != Waiting then s
      else if Aborted(s.stop[w]) then s.(at := s.at[w := Parked])
      else if s.public[w] == [] then s
      else s.(private := s.private[w := s.public[w]], public := s.public[w := s.private[w]], at := s.at[w := Draining])
    case TimeOut(_) => if s.at[w] == Waiting then s.(at := s.at[w := Parked]) else s
    case Donate(_, target, count) =>
      if s.at[w] != Draining || target >= |s.at| || target == w || count > |s.private[w]| then s
      else if Aborted(s.stop[target]) then s.(at := s.at[w := Parked])      // runtime_shutdown ends the donor
      else s.(private := s.private[w := s.private[w][count..]],
              public := s.public[target := s.public[target] + s.private[w][..count]],
              at := s.at[target := Started(s.at[target])])
    case Pop(_) =>
      if s.at[w] != Draining then s
      else if s.private[w] == [] then s.(at := s.at[w := Waiting])
      else if s.stop[w] != NotStopped then s.(at := s.at[w := Parked])
      else
        var last := |s.private[w]| - 1;
        s.(private := s.private[w := s.private[w][..last]], at := s.at[w := Running(s.private[w][last])],
           ran := s.ran + [s.private[w][last]])
    case Finish(_) => if s.at[w].Running? then s.(at := s.at[w := Draining]) else s
    case Shutdown(_) => ShutdownNext(s, w)
  }

  function ShutdownNext(s: State, w: nat): (t: State)
    requires Shaped(s) && w < |s.at|
    ensures Shaped(t)
  {
    match s.stop[w]
    case NotStopped => s.(stop := s.stop[w := AtomicSet])
    case AtomicSet => s.(stop := s.stop[w := AbortSet])
    case AbortSet => if s.at[w] == Parked then s.(stop := s.stop[w := Joined]) else s
    case Joined =>
      s.(stop := s.stop[w := Cleared], destroyed := s.destroyed + s.public[w] + s.private[w],
         public := s.public[w := []], private := s.private[w := []])
    case Cleared => s
  }

  // ---------- Invariant ----------

  // How often a task occurs in a queue, and in all of them.
  function In(task: nat, queue: seq<nat>): nat {
    multiset(queue)[task]
  }

  function InAll(task: nat, queues: seq<seq<nat>>): nat {
    if |queues| == 0 then 0 else InAll(task, queues[..|queues| - 1]) + In(task, queues[|queues| - 1])
  }

  lemma {:induction false} InAllUpdate(task: nat, queues: seq<seq<nat>>, i: nat, q: seq<nat>)
    requires i < |queues|
    ensures InAll(task, queues[i := q]) == InAll(task, queues) - In(task, queues[i]) + In(task, q)
  {
    var front := queues[..|queues| - 1];
    if i < |front| {
      InAllUpdate(task, front, i, q);
      assert queues[i := q][..|queues| - 1] == front[i := q];
    } else {
      assert queues[i := q][..|queues| - 1] == front;
    }
  }

  lemma {:induction false} InAllEmpty(task: nat, queues: seq<seq<nat>>)
    requires forall i :: 0 <= i < |queues| ==> queues[i] == []
    ensures InAll(task, queues) == 0
  {
    if |queues| > 0 { InAllEmpty(task, queues[..|queues| - 1]); }
  }

  lemma {:induction false} InNewTasks(task: nat, first: nat, count: nat)
    ensures In(task, NewTasks(first, count)) == if first <= task < first + count then 1 else 0
  {
    if count > 0 {
      InNewTasks(task, first, count - 1);
      assert NewTasks(first, count) == NewTasks(first, count - 1) + [first + count - 1];
    }
  }

  // How often a task occurs anywhere.
  function Occurrences(s: State, task: nat): nat {
    InAll(task, s.private) + InAll(task, s.public) + In(task, s.ran) + In(task, s.destroyed)
  }

  predicate TaskInv(s: State, task: nat) {
    Occurrences(s, task) == if task < s.accepted then 1 else 0
  }

  predicate StopInv(s: State)
    requires Shaped(s)
  {
    && (forall w :: 0 <= w < |s.at| && (s.stop[w] == Joined || s.stop[w] == Cleared) ==> s.at[w] == Parked)
    && (forall w :: 0 <= w < |s.at| && s.stop[w] == Cleared ==> s.private[w] == [] && s.public[w] == [])
  }

  lemma {:induction false} ShutdownKeepsStop(s: State, w: nat)
    requires Shaped(s) && StopInv(s) && w < |s.at|
    ensures StopInv(ShutdownNext(s, w))
  {
  }

  lemma {:induction false} DonateKeepsStop(s: State, a: Action)
    requires Shaped(s) && StopInv(s) && a.Donate?
    ensures StopInv(Next(s, a))
  {
  }

  lemma {:induction false} EnqueueKeepsStop(s: State, a: Action)
    requires Shaped(s) && StopInv(s) && (a.EnqueueForeign? || a.EnqueueLocal?)
    ensures StopInv(Next(s, a))
  {
  }

  lemma {:induction false} NextKeepsStop(s: State, a: Action)
    requires Shaped(s) && StopInv(s)
    ensures StopInv(Next(s, a))
  {
    match a
    case Shutdown(w) => if w < |s.at| { ShutdownKeepsStop(s, w); }
    case Donate(_, _, _) => DonateKeepsStop(s, a);
    case EnqueueForeign(_, _) => EnqueueKeepsStop(s, a);
    case EnqueueLocal(_, _) => EnqueueKeepsStop(s, a);
    case _ =>
  }

  lemma {:induction false} EnqueueKeepsTasks(s: State, a: Action, task: nat)
    requires Shaped(s) && TaskInv(s, task) && (a.EnqueueForeign? || a.EnqueueLocal?)
    ensures TaskInv(Next(s, a), task)
  {
    if a.w < |s.at| {
      InNewTasks(task, s.accepted, a.count);
      InAllUpdate(task, s.private, a.w, Next(s, a).private[a.w]);
      InAllUpdate(task, s.public, a.w, Next(s, a).public[a.w]);
    }
  }

  lemma {:induction false} InAppend(task: nat, a: seq<nat>, b: seq<nat>)
    ensures In(task, a + b) == In(task, a) + In(task, b)
  {
  }

  lemma {:induction false} InSplit(task: nat, queue: seq<nat>, k: nat)
    requires k <= |queue|
    ensures In(task, queue) == In(task, queue[..k]) + In(task, queue[k..])
  {
    assert queue == queue[..k] + queue[k..];
  }

  lemma {:induction false} DonateKeepsTasks(s: State, a: Action, task: nat)
    requires Shaped(s) && TaskInv(s, task) && a.Donate?
    ensures TaskInv(Next(s, a), task)
  {
    if a.w < |s.at| && a.target < |s.at| && a.count <= |s.private[a.w]| {
      InSplit(task, s.private[a.w], a.count);
      InAppend(task, s.public[a.target], s.private[a.w][..a.count]);
      InAllUpdate(task, s.private, a.w, Next(s, a).private[a.w]);
      InAllUpdate(task, s.public, a.target, Next(s, a).public[a.target]);
    }
  }

  lemma {:induction false} SwapKeepsTasks(s: State, w: nat, task: nat)
    requires Shaped(s) && TaskInv(s, task) && w < |s.at|
    ensures TaskInv(Next(s, Swap(w)), task)
  {
    InAllUpdate(task, s.private, w, s.public[w]);
    InAllUpdate(task, s.public, w, s.private[w]);
  }

  lemma {:induction false} PopKeepsTasks(s: State, w: nat, task: nat)
    requires Shaped(s) && TaskInv(s, task) && w < |s.at|
    ensures TaskInv(Next(s, Pop(w)), task)
  {
    var queue := s.private[w];
    if queue != [] {
      assert queue == queue[..|queue| - 1] + [queue[|queue| - 1]];
      InAllUpdate(task, s.private, w, queue[..|queue| - 1]);
    }
  }

  lemma {:induction false} InConcat(task: nat, a: seq<nat>, b: seq<nat>, c: seq<nat>)
    ensures In(task, a + b + c) == In(task, a) + In(task, b) + In(task, c)
  {
  }

  lemma {:induction false} ClearingKeepsTasks(s: State, w: nat, task: nat)
    requires Shaped(s) && TaskInv(s, task) && w < |s.at| && s.stop[w] == Joined
    ensures TaskInv(ShutdownNext(s, w), task)
  {
    InAllUpdate(task, s.private, w, []);
    InAllUpdate(task, s.public, w, []);
    InConcat(task, s.destroyed, s.public[w], s.private[w]);
  }

  lemma {:induction false} ShutdownKeepsTasks(s: State, w: nat, task: nat)
    requires Shaped(s) && TaskInv(s, task) && w < |s.at|
    ensures TaskInv(ShutdownNext(s, w), task)
  {
    if s.stop[w] == Joined { ClearingKeepsTasks(s, w, task); }
  }

  lemma {:induction false} NextKeepsTasks(s: State, a: Action, task: nat)
    requires Shaped(s) && TaskInv(s, task)
    ensures TaskInv(Next(s, a), task)
  {
    match a
    case EnqueueForeign(_, _) => EnqueueKeepsTasks(s, a, task);
    case EnqueueLocal(_, _) => EnqueueKeepsTasks(s, a, task);
    case Swap(w) => if w < |s.at| { SwapKeepsTasks(s, w, task); }
    case Donate(_, _, _) => DonateKeepsTasks(s, a, task);
    case Pop(w) => if w < |s.at| { PopKeepsTasks(s, w, task); }
    case Shutdown(w) => if w < |s.at| { ShutdownKeepsTasks(s, w, task); }
    case _ =>
  }

  lemma {:induction false} RunKeepsTasks(n: nat, actions: seq<Action>, task: nat)
    ensures TaskInv(Run(Initial(n), actions), task)
  {
    if |actions| == 0 {
      InAllEmpty(task, Initial(n).private);
      InAllEmpty(task, Initial(n).public);
    } else {
      RunKeepsTasks(n, actions[..|actions| - 1], task);
      NextKeepsTasks(Run(Initial(n), actions[..|actions| - 1]), actions[|actions| - 1], task);
    }
  }

  lemma {:induction false} RunKeepsStop(n: nat, actions: seq<Action>)
    ensures StopInv(Run(Initial(n), actions))
  {
    if |actions| > 0 {
      RunKeepsStop(n, actions[..|actions| - 1]);
      NextKeepsStop(Run(Initial(n), actions[..|actions| - 1]), actions[|actions| - 1]);
    }
  }

  // ---------- What every interleaving guarantees ----------

  /** Each accepted task is at any time in exactly one queue, started once, or destroyed once, and no
      other task is anywhere. */
  lemma {:induction false} TasksAreConserved(n: nat, actions: seq<Action>, task: nat)
    ensures var s := Run(Initial(n), actions);
            InAll(task, s.private) + InAll(task, s.public) + In(task, s.ran) + In(task, s.destroyed) ==
            if task < s.accepted then 1 else 0
  {
    RunKeepsTasks(n, actions, task);
  }

  // ---------- Started or destroyed ----------

  lemma {:induction false} DestroyedStep(s: State, a: Action)
    requires Shaped(s)
    ensures Next(s, a).destroyed == s.destroyed || (a.Shutdown? && a.w < |s.at| && s.stop[a.w] == Joined)
    ensures forall w :: 0 <= w < |s.stop| && s.stop[w] == Cleared ==> Next(s, a).stop[w] == Cleared
    ensures a.Shutdown? && a.w < |s.at| && s.stop[a.w] == Joined ==> Next(s, a).stop[a.w] == Cleared
    ensures |Next(s, a).stop| == |s.stop|
  {
  }

  /** A task is destroyed only at the end of a worker's shutdown: until then none is. */
  lemma {:induction false} OnlyShutdownDestroys(n: nat, actions: seq<Action>)
    requires var s := Run(Initial(n), actions); forall w :: 0 <= w < |s.stop| ==> s.stop[w] != Cleared
    ensures Run(Initial(n), actions).destroyed == []
  {
    if |actions| > 0 {
      var s := Run(Initial(n), actions[..|actions| - 1]);
      var t := Next(s, actions[|actions| - 1]);
      assert t == Run(Initial(n), actions);
      DestroyedStep(s, actions[|actions| - 1]);
      forall w | 0 <= w < |s.stop| ensures s.stop[w] != Cleared { assert t.stop[w] != Cleared; }
      OnlyShutdownDestroys(n, actions[..|actions| - 1]);
    }
  }

  /** A worker takes the newest task of its private queue, and starts it. */
  lemma {:induction false} PopStartsNewest(s: State, w: nat)
    requires Shaped(s) && w < |s.at| && s.at[w] == Draining && s.stop[w] == NotStopped && s.private[w] != []
    ensures var t := Next(s, Pop(w));
            && t.at[w].Running? && t.private[w] + [t.at[w].task] == s.private[w]
            && t.ran == s.ran + [t.at[w].task]
  {
  }

  predicate RunningInv(s: State)
    requires Shaped(s)
  {
    forall w :: 0 <= w < |s.at| && s.at[w].Running? ==> s.at[w].task in s.ran
  }

  lemma {:induction false} NextKeepsRunning(s: State, a: Action)
    requires Shaped(s) && RunningInv(s)
    ensures RunningInv(Next(s, a))
  {
    if a.Donate? { DonateKeepsRunning(s, a); }
  }

  lemma {:induction false} DonateKeepsRunning(s: State, a: Action)
    requires Shaped(s) && RunningInv(s) && a.Donate?
    ensures RunningInv(Next(s, a))
  {
  }

  /** A running task was started, and is in no queue. */
  lemma {:induction false} RunningTaskWasStarted(n: nat, actions: seq<Action>, w: nat)
    requires var s := Run(Initial(n), actions); w < |s.at| && s.at[w].Running?
    ensures var s := Run(Initial(n), actions);
            var task := s.at[w].task;
            && In(task, s.ran) == 1 && In(task, s.destroyed) == 0
            && InAll(task, s.private) == 0 && InAll(task, s.public) == 0
  {
    RunKeepsRunning(n, actions);
    var s := Run(Initial(n), actions);
    RunKeepsTasks(n, actions, s.at[w].task);
    assert s.at[w].task in multiset(s.ran);
  }

  lemma {:induction false} RunKeepsRunning(n: nat, actions: seq<Action>)
    ensures RunningInv(Run(Initial(n), actions))
  {
    if |actions| > 0 {
      RunKeepsRunning(n, actions[..|actions| - 1]);
      NextKeepsRunning(Run(Initial(n), actions[..|actions| - 1]), actions[|actions| - 1]);
    }
  }

  // ---------- What a worker leaves behind ----------

  // The worker is not draining, but its private queue is not empty: the next swap finds it so.
  predicate Leftover(s: State, w: nat)
    requires Shaped(s) && w < |s.at|
  {
    s.private[w] != [] && (s.at[w] == Waiting || s.at[w] == Parked)
  }

  // The worker leaves drain_queue_impl early: it is being stopped, or it donates to a worker that is shut down.
  predicate Quits(s: State, a: Action, w: nat)
    requires Shaped(s) && w < |s.at|
  {
    && a.w == w && s.at[w] == Draining && s.private[w] != []
    && (|| (a.Pop? && s.stop[w] != NotStopped)
        || (a.Donate? && a.target < |s.at| && a.target != w && a.count <= |s.private[w]| && Aborted(s.stop[a.target])))
  }

  predicate Clears(s: State, a: Action, w: nat)
    requires Shaped(s) && w < |s.at|
  {
    && a.w == w
    && (|| (a.Swap? && s.at[w] == Waiting && !Aborted(s.stop[w]) && s.public[w] != [])
        || (a.Shutdown? && s.stop[w] == Joined))
  }

  /** Tasks stay behind in a private queue by exactly these steps, until the next swap or the end of shutdown. */
  lemma {:induction false} LeftoverStep(s: State, a: Action, w: nat)
    requires Shaped(s) && w < |s.at|
    ensures |Next(s, a).at| == |s.at|
    ensures Leftover(Next(s, a), w) <==> (Leftover(s, w) && !Clears(s, a, w)) || Quits(s, a, w)
  {
    match a
    case Donate(_, _, _) => DonateLeftover(s, a, w);
    case Shutdown(v) => if v < |s.at| { ShutdownLeftover(s, v, w); }
    case _ =>
  }

  lemma {:induction false} DonateLeftover(s: State, a: Action, w: nat)
    requires Shaped(s) && w < |s.at| && a.Donate?
    ensures |Next(s, a).at| == |s.at|
    ensures Leftover(Next(s, a), w) <==> Leftover(s, w) || Quits(s, a, w)
  {
  }

  lemma {:induction false} ShutdownLeftover(s: State, v: nat, w: nat)
    requires Shaped(s) && v < |s.at| && w < |s.at|
    ensures |ShutdownNext(s, v).at| == |s.at|
    ensures Leftover(ShutdownNext(s, v), w) <==> Leftover(s, w) && !Clears(s, Shutdown(v), w)
  {
  }

  predicate AllOpen(s: State)
    requires Shaped(s)
  {
    forall w :: 0 <= w < |s.stop| ==> s.stop[w] == NotStopped
  }

  lemma {:induction false} StopOnlyAdvances(s: State, a: Action)
    requires Shaped(s) && AllOpen(Next(s, a))
    ensures AllOpen(s)
  {
    forall w | 0 <= w < |s.stop| ensures s.stop[w] == NotStopped { assert Next(s, a).stop[w] == NotStopped; }
  }

  /** Until the shutdown of some worker has begun, a worker's private queue is empty whenever it swaps. */
  lemma {:induction false} PrivateIsEmptyAtSwapWhileOpen(n: nat, actions: seq<Action>, w: nat)
    requires AllOpen(Run(Initial(n), actions)) && w < n
    ensures var s := Run(Initial(n), actions); |s.at| == n && !Leftover(s, w)
  {
    if |actions| > 0 {
      var front, a := actions[..|actions| - 1], actions[|actions| - 1];
      StopOnlyAdvances(Run(Initial(n), front), a);
      PrivateIsEmptyAtSwapWhileOpen(n, front, w);
      LeftoverStep(Run(Initial(n), front), a, w);
    }
  }

  // Worker w holds these tasks in its private and in its public queue.
  predicate Has(s: State, w: nat, at: Worker, stop: Stop, private: seq<nat>, public: seq<nat>, accepted: nat) {
    && Shaped(s) && w < |s.at| && s.at[w] == at && s.stop[w] == stop
    && s.private[w] == private && s.public[w] == public && s.accepted == accepted
  }

  // The worker gets tasks and begins to drain them.
  lemma {:induction false} BeginsToDrain(n: nat, w: nat, count: nat)
    requires w < n && count > 0
    ensures var s := Run(Initial(n), [] + [EnqueueForeign(w, count)] + [Swap(w)]);
            Has(s, w, Draining, NotStopped, NewTasks(0, count), [], count) && |s.at| == n && AllOpen(s)
  {
    RunLast(Initial(n), [], EnqueueForeign(w, count));
    var s := Next(Initial(n), EnqueueForeign(w, count));
    assert [] + NewTasks(0, count) == NewTasks(0, count);
    assert Has(s, w, Waiting, NotStopped, [], NewTasks(0, count), count);
    assert |NewTasks(0, count)| > 0;
    RunLast(Initial(n), [] + [EnqueueForeign(w, count)], Swap(w));
  }

  /** Afterwards it may not be: a donation to a worker that is shut down ends the donor, and the next enqueue
      gives it a new thread. */
  lemma {:induction false} FailedDonationLeavesTasks()
    ensures var s := Run(Initial(2), [] + [EnqueueForeign(1, 2)] + [Swap(1)] + [Shutdown(0)] + [Shutdown(0)] +
                                     [Donate(1, 0, 1)] + [EnqueueForeign(1, 1)]);
            Has(s, 1, Waiting, NotStopped, NewTasks(0, 2), NewTasks(2, 1), 3) && Leftover(s, 1)
  {
    var draining := [] + [EnqueueForeign(1, 2)] + [Swap(1)];
    BeginsToDrain(2, 1, 2);
    RunLast(Initial(2), draining, Shutdown(0));
    RunLast(Initial(2), draining + [Shutdown(0)], Shutdown(0));
    RunLast(Initial(2), draining + [Shutdown(0)] + [Shutdown(0)], Donate(1, 0, 1));
    RunLast(Initial(2), draining + [Shutdown(0)] + [Shutdown(0)] + [Donate(1, 0, 1)], EnqueueForeign(1, 1));
    DonorFails(Run(Initial(2), draining));
  }

  lemma {:induction false} DonorFails(s: State)
    requires Has(s, 1, Draining, NotStopped, NewTasks(0, 2), [], 2) && s.stop[0] == NotStopped
    ensures var t := Next(Next(Next(s, Shutdown(0)), Shutdown(0)), Donate(1, 0, 1));
            var u := Next(t, EnqueueForeign(1, 1));
            Has(u, 1, Waiting, NotStopped, NewTasks(0, 2), NewTasks(2, 1), 3) && Leftover(u, 1)
  {
    var s1 := Next(s, Shutdown(0));
    assert s1 == s.(stop := s.stop[0 := AtomicSet]);
    var s2 := Next(s1, Shutdown(0));
    assert s2.stop[0] == AbortSet && Has(s2, 1, Draining, NotStopped, NewTasks(0, 2), [], 2);
    var t := Next(s2, Donate(1, 0, 1));
    assert Has(t, 1, Parked, NotStopped, NewTasks(0, 2), [], 2);
    assert [] + NewTasks(2, 1) == NewTasks(2, 1);
  }

  /** So may a worker that sees its own stop flag, before enqueues to it are refused. */
  lemma {:induction false} StoppedWorkerLeavesTasks()
    ensures var s := Run(Initial(1), [] + [EnqueueForeign(0, 1)] + [Swap(0)] + [Shutdown(0)] + [Pop(0)] +
                                     [EnqueueForeign(0, 1)]);
            Has(s, 0, Waiting, AtomicSet, NewTasks(0, 1), NewTasks(1, 1), 2) && Leftover(s, 0)
  {
    var draining := [] + [EnqueueForeign(0, 1)] + [Swap(0)];
    BeginsToDrain(1, 0, 1);
    RunLast(Initial(1), draining, Shutdown(0));
    RunLast(Initial(1), draining + [Shutdown(0)], Pop(0));
    RunLast(Initial(1), draining + [Shutdown(0)] + [Pop(0)], EnqueueForeign(0, 1));
    WorkerStops(Run(Initial(1), draining));
  }

  lemma {:induction false} WorkerStops(s: State)
    requires Has(s, 0, Draining, NotStopped, NewTasks(0, 1), [], 1)
    ensures var t := Next(Next(Next(s, Shutdown(0)), Pop(0)), EnqueueForeign(0, 1));
            Has(t, 0, Waiting, AtomicSet, NewTasks(0, 1), NewTasks(1, 1), 2) && Leftover(t, 0)
  {
    var s1 := Next(s, Shutdown(0));
    assert s1 == s.(stop := s.stop[0 := AtomicSet]);
    assert Has(Next(s1, Pop(0)), 0, Parked, AtomicSet, NewTasks(0, 1), [], 1);
    assert [] + NewTasks(1, 1) == NewTasks(1, 1);
  }

  // ---------- Tasks can always start, and shutdown can always end ----------

  lemma {:induction false} RunLast(s: State, front: seq<Action>, a: Action)
    requires Shaped(s)
    ensures Run(s, front + [a]) == Next(Run(s, front), a)
  {
    assert (front + [a])[..|front|] == front;
  }

  lemma {:induction false} RunCons(s: State, a: Action, rest: seq<Action>)
    requires Shaped(s)
    ensures Run(s, [a] + rest) == Run(Next(s, a), rest)
  {
    if rest == [] {
      assert [a] + rest == [] + [a];
      RunLast(s, [], a);
    } else {
      var front, last := rest[..|rest| - 1], rest[|rest| - 1];
      assert rest == front + [last];
      assert [a] + rest == ([a] + front) + [last];
      RunCons(s, a, front);
      RunLast(s, [a] + front, last);
      RunLast(Next(s, a), front, last);
    }
  }

  lemma {:induction false} RunAppend(s: State, a: seq<Action>, b: seq<Action>)
    requires Shaped(s)
    ensures Run(s, a + b) == Run(Run(s, a), b)
    decreases |b|
  {
    if b == [] {
      assert a + b == a;
    } else {
      var front, last := b[..|b| - 1], b[|b| - 1];
      assert b == front + [last] && a + b == (a + front) + [last];
      RunAppend(s, a, front);
      RunLast(s, a + front, last);
      RunLast(Run(s, a), front, last);
    }
  }

  // Nothing is queued for worker w and it runs nothing.
  predicate Quiet(s: State, w: nat)
    requires Shaped(s) && w < |s.at|
  {
    s.private[w] == [] && s.public[w] == [] && !s.at[w].Running? && s.at[w] != Draining
  }

  // Of the workers, at most w differs.
  predicate OnlyWorker(s: State, t: State, w: nat)
    requires Shaped(s) && Shaped(t)
  {
    && |t.at| == |s.at|
    && forall v :: 0 <= v < |s.at| && v != w ==>
         t.private[v] == s.private[v] && t.public[v] == s.public[v] && t.at[v] == s.at[v] && t.stop[v] == s.stop[v]
  }

  function DrainEffort(s: State, w: nat): nat
    requires Shaped(s) && w < |s.at|
  {
    5 * |s.public[w]| + 2 * |s.private[w]| +
    match s.at[w]
    case Running(_) => 4
    case Draining => 3
    case Parked => 2
    case Waiting => 1
  }

  lemma {:induction false} DrainProgress(s: State, w: nat) returns (a: Action)
    requires Shaped(s) && AllOpen(s) && w < |s.at| && !Quiet(s, w) && !Leftover(s, w)
    ensures var t := Next(s, a);
            && OnlyWorker(s, t, w) && AllOpen(t) && !Leftover(t, w)
            && DrainEffort(t, w) < DrainEffort(s, w) && t.accepted == s.accepted
  {
    match s.at[w]
    case Running(_) => a := Finish(w);
    case Draining => a := Pop(w);
    case Waiting => a := Swap(w);
    case Parked =>
      a := EnqueueForeign(w, 0);
      assert s.public[w] + NewTasks(s.accepted, 0) == s.public[w];
  }

  lemma {:induction false} CanDrain(s: State, w: nat) returns (more: seq<Action>)
    requires Shaped(s) && AllOpen(s) && w < |s.at| && !Leftover(s, w)
    ensures var t := Run(s, more); OnlyWorker(s, t, w) && AllOpen(t) && Quiet(t, w) && t.accepted == s.accepted
    decreases DrainEffort(s, w)
  {
    if Quiet(s, w) {
      more := [];
    } else {
      var a := DrainProgress(s, w);
      var rest := CanDrain(Next(s, a), w);
      RunCons(s, a, rest);
      more := [a] + rest;
    }
  }

  lemma {:induction false} CanDrainAll(s: State, k: nat) returns (more: seq<Action>)
    requires Shaped(s) && AllOpen(s) && k <= |s.at| && forall w :: 0 <= w < |s.at| ==> !Leftover(s, w)
    ensures var t := Run(s, more);
            && |t.at| == |s.at| && AllOpen(t) && t.accepted == s.accepted
            && (forall w :: 0 <= w < |t.at| ==> !Leftover(t, w)) && (forall w :: 0 <= w < k ==> Quiet(t, w))
  {
    if k == 0 {
      more := [];
    } else {
      var front := CanDrainAll(s, k - 1);
      var t := Run(s, front);
      var last := CanDrain(t, k - 1);
      RunAppend(s, front, last);
      more := front + last;
      forall w | 0 <= w < k ensures Quiet(Run(s, more), w) { assert w < k - 1 ==> Quiet(t, w); }
      forall w | 0 <= w < |t.at| ensures !Leftover(Run(s, more), w) { assert !Leftover(t, w); }
    }
  }

  /** Until a shutdown begins, every accepted task can start: after some schedule, without new tasks, each accepted task
      has been started exactly once. */
  lemma {:induction false} EveryTaskCanStart(n: nat, actions: seq<Action>) returns (more: seq<Action>)
    requires AllOpen(Run(Initial(n), actions))
    ensures var s := Run(Initial(n), actions);
            var t := Run(s, more);
            t.accepted == s.accepted && forall task: nat :: In(task, t.ran) == if task < s.accepted then 1 else 0
  {
    var s := Run(Initial(n), actions);
    RunSize(n, actions);
    forall w | 0 <= w < |s.at| ensures !Leftover(s, w) { PrivateIsEmptyAtSwapWhileOpen(n, actions, w); }
    more := CanDrainAll(s, |s.at|);
    var t := Run(s, more);
    RunAppend(Initial(n), actions, more);
    assert Run(Initial(n), actions + more) == t;
    forall task: nat ensures In(task, t.ran) == if task < s.accepted then 1 else 0 {
      AllStarted(n, actions + more, task);
    }
  }

  lemma {:induction false} AllStarted(n: nat, actions: seq<Action>, task: nat)
    requires var t := Run(Initial(n), actions); AllOpen(t) && forall w :: 0 <= w < |t.at| ==> Quiet(t, w)
    ensures var t := Run(Initial(n), actions); In(task, t.ran) == if task < t.accepted then 1 else 0
  {
    var t := Run(Initial(n), actions);
    RunKeepsTasks(n, actions, task);
    OnlyShutdownDestroys(n, actions);
    forall w | 0 <= w < |t.at| ensures t.private[w] == [] && t.public[w] == [] { assert Quiet(t, w); }
    InAllEmpty(task, t.private);
    InAllEmpty(task, t.public);
  }

  lemma {:induction false} RunSize(n: nat, actions: seq<Action>)
    ensures |Run(Initial(n), actions).at| == n
  {
    if |actions| > 0 {
      RunSize(n, actions[..|actions| - 1]);
      SizeStep(Run(Initial(n), actions[..|actions| - 1]), actions[|actions| - 1]);
    }
  }

  lemma {:induction false} SizeStep(s: State, a: Action)
    requires Shaped(s)
    ensures |Next(s, a).at| == |s.at|
  {
  }

  function ClearEffort(s: State, w: nat): nat
    requires Shaped(s) && w < |s.at|
  {
    (match s.stop[w]
     case NotStopped => 4
     case AtomicSet => 3
     case AbortSet => 2
     case Joined => 1
     case Cleared => 0) +
    match s.at[w]
    case Parked => 0
    case Waiting => 1
    case Draining => 2
    case Running(_) => 3
  }

  lemma {:induction false} ClearProgress(s: State, w: nat) returns (a: Action)
    requires Shaped(s) && StopInv(s) && w < |s.at| && s.stop[w] != Cleared
    ensures a.w == w && !a.EnqueueForeign? && !a.EnqueueLocal? && !a.Donate?
    ensures var t := Next(s, a);
            OnlyWorker(s, t, w) && ClearEffort(t, w) < ClearEffort(s, w) && t.accepted == s.accepted
  {
    if s.stop[w] != AbortSet || s.at[w] == Parked {
      a := Shutdown(w);
    } else {
      match s.at[w]
      case Running(_) => a := Finish(w);
      case Draining => a := Pop(w);
      case _ => a := Swap(w);
    }
  }

  lemma {:induction false} CanClear(s: State, w: nat) returns (more: seq<Action>)
    requires Shaped(s) && StopInv(s) && w < |s.at|
    ensures var t := Run(s, more);
            OnlyWorker(s, t, w) && StopInv(t) && t.stop[w] == Cleared && t.accepted == s.accepted
    decreases ClearEffort(s, w)
  {
    if s.stop[w] == Cleared {
      more := [];
    } else {
      var a := ClearProgress(s, w);
      NextKeepsStop(s, a);
      var rest := CanClear(Next(s, a), w);
      RunCons(s, a, rest);
      more := [a] + rest;
    }
  }

  lemma {:induction false} CanClearAll(s: State, k: nat) returns (more: seq<Action>)
    requires Shaped(s) && StopInv(s) && k <= |s.at|
    ensures var t := Run(s, more);
            && |t.at| == |s.at| && StopInv(t) && t.accepted == s.accepted
            && forall w :: 0 <= w < k ==> t.stop[w] == Cleared
  {
    if k == 0 {
      more := [];
    } else {
      var front := CanClearAll(s, k - 1);
      var last := CanClear(Run(s, front), k - 1);
      RunAppend(s, front, last);
      more := front + last;
    }
  }

  /** From every reachable state some schedule, without new tasks, ends the shutdown of all workers. */
  lemma {:induction false} ShutdownIsAlwaysPossible(n: nat, actions: seq<Action>) returns (more: seq<Action>)
    ensures var t := Run(Run(Initial(n), actions), more);
            AllCleared(t) && t.accepted == Run(Initial(n), actions).accepted
  {
    RunKeepsStop(n, actions);
    more := CanClearAll(Run(Initial(n), actions), |Run(Initial(n), actions).at|);
  }

  /** An enqueue to a worker is accepted until its shutdown sets its flag, one from its running task until it is told to
      stop; the new tasks join the end of one queue, and no other queue changes. */
  lemma {:induction false} EnqueueOutcome(s: State, w: nat, count: nat)
    requires Shaped(s) && w < |s.at|
    ensures var t, u := Next(s, EnqueueForeign(w, count)), Next(s, EnqueueLocal(w, count));
            && (if Aborted(s.stop[w]) then t == s
                else
                  && s.public[w] <= t.public[w] && |t.public[w]| == |s.public[w]| + count && t.private == s.private
                  && t.accepted == s.accepted + count && t.at[w] != Parked
                  && forall v :: 0 <= v < |s.at| && v != w ==> t.public[v] == s.public[v] && t.at[v] == s.at[v])
            && (if s.at[w].Running? && s.stop[w] == NotStopped then
                  && s.private[w] <= u.private[w] && |u.private[w]| == |s.private[w]| + count && u.public == s.public
                  && u.accepted == s.accepted + count && u.at == s.at
                  && forall v :: 0 <= v < |s.at| && v != w ==> u.private[v] == s.private[v]
                else u == s)
  {
  }

  /** A waiting worker that times out gives up its thread and leaves its queues as they are; one that is told to stop
      does so too, with whatever it had not started. */
  lemma {:induction false} QuitOutcome(s: State, w: nat)
    requires Shaped(s) && w < |s.at|
    ensures var t, u := Next(s, TimeOut(w)), Next(s, Pop(w));
            && (s.at[w] == Waiting ==>
                  t.at[w] == Parked && t.private == s.private && t.public == s.public && OnlyWorker(s, t, w))
            && (s.at[w] == Draining && s.private[w] != [] && s.stop[w] != NotStopped ==>
                  u.at[w] == Parked && u.private == s.private && u.public == s.public && u.ran == s.ran)
  {
  }

  /** Until a shutdown begins, a waiting worker takes its whole public queue, in order, and leaves it empty. */
  lemma {:induction false} SwapOutcome(n: nat, actions: seq<Action>, w: nat)
    requires AllOpen(Run(Initial(n), actions)) && w < n
    ensures var s := Run(Initial(n), actions);
            var t := Next(s, Swap(w));
            && |s.at| == n
            && (s.at[w] == Waiting ==>
                  if s.public[w] == [] then t == s
                  else t.private[w] == s.public[w] && t.public[w] == [] && t.at[w] == Draining && OnlyWorker(s, t, w))
  {
    PrivateIsEmptyAtSwapWhileOpen(n, actions, w);
  }

  /** A donation moves the oldest tasks of the donor, in order, behind those of a worker that is not shut down, and
      leaves that worker with a thread; to a worker that is shut down nothing is moved, and the donor gives up. */
  lemma {:induction false} DonationOutcome(s: State, w: nat, target: nat, count: nat)
    requires Shaped(s) && w < |s.at| && target < |s.at| && w != target
    requires s.at[w] == Draining && count <= |s.private[w]|
    ensures var t := Next(s, Donate(w, target, count));
            if Aborted(s.stop[target]) then t.private == s.private && t.public == s.public && t.at[w] == Parked
            else
              && t.public[target] + t.private[w] == s.public[target] + s.private[w]
              && |t.public[target]| == |s.public[target]| + count
              && t.at[target] != Parked && t.at[w] == Draining
              && forall v :: 0 <= v < |s.at| ==>
                   (v != w ==> t.private[v] == s.private[v]) && (v != target ==> t.public[v] == s.public[v])
  {
    var queue := s.private[w];
    assert queue == queue[..count] + queue[count..];
    assert s.public[target] + queue == (s.public[target] + queue[..count]) + queue[count..];
  }

  predicate AllCleared(s: State)
    requires Shaped(s)
  {
    forall w :: 0 <= w < |s.stop| ==> s.stop[w] == Cleared
  }

  /** When `shutdown` has returned, every accepted task was started once or destroyed once. */
  lemma {:induction false} ShutdownSettlesEveryTask(n: nat, actions: seq<Action>, task: nat)
    requires AllCleared(Run(Initial(n), actions))
    ensures var s := Run(Initial(n), actions);
            In(task, s.ran) + In(task, s.destroyed) == if task < s.accepted then 1 else 0
  {
    RunKeepsTasks(n, actions, task);
    RunKeepsStop(n, actions);
    InAllEmpty(task, Run(Initial(n), actions).private);
    InAllEmpty(task, Run(Initial(n), actions).public);
  }

  lemma {:induction false} ClearedIsFinal(s: State, a: Action)
    requires Shaped(s) && StopInv(s) && AllCleared(s)
    ensures Next(s, a) == s
  {
  }

  /** And nothing happens in the pool any more. */
  lemma {:induction false} ShutdownIsFinal(n: nat, actions: seq<Action>, more: seq<Action>)
    requires AllCleared(Run(Initial(n), actions))
    ensures Run(Run(Initial(n), actions), more) == Run(Initial(n), actions)
  {
    if |more| > 0 {
      ShutdownIsFinal(n, actions, more[..|more| - 1]);
      RunKeepsStop(n, actions);
      ClearedIsFinal(Run(Initial(n), actions), more[|more| - 1]);
    }
  }
}
