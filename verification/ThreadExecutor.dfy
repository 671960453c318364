/**
  `thread_executor`: every task gets a thread of its own. A thread that has run its task moves its
  own handle from `m_workers` to `m_last_retired` and joins the thread that was there before, so that
  `shutdown` has to join only one thread. Each region guarded by `m_lock` and each join is one action.
 */
module ThreadExecutor {
  import opened Collections

  datatype Place =
    | Running                     // executing its task
    | Retiring                    // its task is done, before retire_worker's region
    | Joining(prev: seq<nat>)     // left the region with the old m_last_retired
    | Finished

  datatype Shutdown = NotCalled | Waiting | JoiningLast | Done

  datatype State = State(
    at: seq<Place>,               // one entry per created thread
    workers: set<nat>,            // m_workers
    lastRetired: seq<nat>,        // m_last_retired
    abort: bool,                  // m_abort
    shutdown: Shutdown,           // the first call of shutdown
    laterCalls: nat,              // calls of shutdown that found it called before, and returned at once
    retired: seq<nat>,            // threads in the order of their retire_worker regions
    joined: seq<nat>)             // joined threads, in order

  datatype Action = Enqueue | TaskDone(t: nat) | Retire(t: nat) | Join(t: nat) | CallShutdown | WorkersGone | JoinLast

  function Initial(): State {
    State([], {}, [], false, NotCalled, 0, [], [])
  }

  function Run(s: State, actions: seq<Action>): State {
    if |actions| == 0 then s
    else Next(Run(s, actions[..|actions| - 1]), actions[|actions| - 1])
  }

  predicate CanJoin(s: State, threads: seq<nat>) {
    forall i :: 0 <= i < |threads| ==> threads[i] < |s.at| && s.at[threads[i]] == Finished
  }

  function Next(s: State, a: Action): State {
    match a
    case Enqueue =>
      if !s.abort then s.(workers := s.workers + {|s.at|}, at := s.at + [Running]) else s
    case TaskDone(t) => if t < |s.at| && s.at[t] == Running then s.(at := s.at[t := Retiring]) else s
    case Retire(t) =>
      // shutdown keeps m_lock locked while it joins
      if t < |s.at| && s.at[t] == Retiring && s.shutdown != JoiningLast then
        s.(at := s.at[t := Joining(s.lastRetired)], workers := s.workers - {t}, lastRetired := [t],
           retired := s.retired + [t])
      else s
    case Join(t) =>
      if t < |s.at| && s.at[t].Joining? && CanJoin(s, s.at[t].prev) then
        s.(at := s.at[t := Finished], joined := s.joined + s.at[t].prev)
      else s
    case CallShutdown =>
      if s.shutdown == NotCalled then s.(abort := true, shutdown := Waiting) else s.(laterCalls := s.laterCalls + 1)
    case WorkersGone =>
      if s.shutdown == Waiting && s.workers == {} then
        s.(shutdown := if s.lastRetired == [] then Done else JoiningLast)
      else s
    case JoinLast =>
      if s.shutdown == JoiningLast && CanJoin(s, s.lastRetired) then
        s.(shutdown := Done, joined := s.joined + s.lastRetired, lastRetired := [])
      else s
  }

  // ---------- Invariant ----------

  predicate ThreadInv(s: State, t: nat)
    requires t < |s.at|
  {
    && (t in s.workers <==> s.at[t] == Running || s.at[t] == Retiring)
    && (t in s.retired <==> s.at[t].Joining? || s.at[t] == Finished)
  }

  // The thread retired as number i joins the one retired before it.
  predicate ChainInv(s: State, i: nat)
    requires i < |s.retired| && s.retired[i] < |s.at|
  {
    var p := s.at[s.retired[i]];
    && (p.Joining? ==> p.prev == if i == 0 then [] else [s.retired[i - 1]])
    && (i > 0 ==> (p == Finished <==> i <= |s.joined|))
    && (i == 0 && |s.joined| > 0 ==> p == Finished)
  }

  predicate Inv(s: State) {
    && (forall t :: t in s.workers ==> t < |s.at|)
    && (forall t :: 0 <= t < |s.at| ==> ThreadInv(s, t))
    && (forall i :: 0 <= i < |s.retired| ==> s.retired[i] < |s.at|)
    && Distinct(s.retired)
    && |s.joined| <= |s.retired|
    && (forall i :: 0 <= i < |s.joined| ==> s.joined[i] == s.retired[i])
    && (forall i :: 0 <= i < |s.retired| ==> ChainInv(s, i))
    && (|s.joined| == |s.retired| <==> |s.retired| == 0 || s.shutdown == Done)
    && s.lastRetired == (if |s.retired| == 0 || s.shutdown == Done then [] else [s.retired[|s.retired| - 1]])
    && (s.shutdown != NotCalled <==> s.abort)
    && (s.shutdown == JoiningLast || s.shutdown == Done ==> s.workers == {})
    && (s.shutdown == JoiningLast ==> |s.retired| > 0)
  }

  lemma {:induction false} RetireKeepsInv(s: State, t: nat)
    requires Inv(s)
    ensures Inv(Next(s, Retire(t)))
  {
    if t < |s.at| && s.at[t] == Retiring && s.shutdown != JoiningLast {
      var u := Next(s, Retire(t));
      assert ThreadInv(s, t);
      forall x | 0 <= x < |u.at| ensures ThreadInv(u, x) { assert ThreadInv(s, x); }
      forall i | 0 <= i < |u.retired| ensures ChainInv(u, i) {
        if i < |s.retired| { assert ChainInv(s, i); }
      }
    }
  }

  // The thread that retired as number k may join only when the k - 1 threads before its predecessor are joined.
  lemma {:induction false} JoinIsNext(s: State, t: nat) returns (k: nat)
    requires Inv(s) && t < |s.at| && s.at[t].Joining? && CanJoin(s, s.at[t].prev)
    ensures k < |s.retired| && s.retired[k] == t
    ensures s.at[t].prev == if k == 0 then [] else [s.retired[k - 1]]
    ensures |s.joined| == if k == 0 then 0 else k - 1
    ensures k > 0 ==> s.retired[k - 1] < |s.at| && s.at[s.retired[k - 1]] == Finished
  {
    assert ThreadInv(s, t);
    k :| 0 <= k < |s.retired| && s.retired[k] == t;
    assert ChainInv(s, k);
    if k > 0 {
      var before := s.at[t].prev;
      assert before == [s.retired[k - 1]];
      assert s.at[before[0]] == Finished;
      assert ChainInv(s, k - 1);
    }
  }

  lemma {:induction false} JoinKeepsChain(s: State, t: nat, k: nat, i: nat)
    requires Inv(s) && t < |s.at| && k < |s.retired| && s.retired[k] == t && i < |s.retired|
    requires s.at[t].Joining? && s.at[t].prev == if k == 0 then [] else [s.retired[k - 1]]
    requires |s.joined| == if k == 0 then 0 else k - 1
    requires k > 0 ==> s.at[s.retired[k - 1]] == Finished
    ensures var u := s.(at := s.at[t := Finished], joined := s.joined + s.at[t].prev); ChainInv(u, i)
  {
    assert ChainInv(s, i);
    if i != k { assert s.retired[i] != t; }
  }

  lemma {:induction false} JoinKeepsThread(s: State, t: nat, x: nat)
    requires t < |s.at| && x < |s.at| && s.at[t].Joining? && ThreadInv(s, x)
    ensures ThreadInv(s.(at := s.at[t := Finished], joined := s.joined + s.at[t].prev), x)
  {
  }

  lemma {:induction false} JoinKeepsInv(s: State, t: nat)
    requires Inv(s)
    ensures Inv(Next(s, Join(t)))
  {
    if t < |s.at| && s.at[t].Joining? && CanJoin(s, s.at[t].prev) {
      var u := Next(s, Join(t));
      var k := JoinIsNext(s, t);
      forall x | 0 <= x < |u.at| ensures ThreadInv(u, x) { JoinKeepsThread(s, t, x); }
      forall i | 0 <= i < |u.retired| ensures ChainInv(u, i) { JoinKeepsChain(s, t, k, i); }
      assert |s.retired| > |s.joined| + |s.at[t].prev|;
    }
  }

  lemma {:induction false} JoinLastKeepsInv(s: State)
    requires Inv(s)
    ensures Inv(Next(s, JoinLast))
  {
    var u := Next(s, JoinLast);
    if s.shutdown == JoiningLast && CanJoin(s, s.lastRetired) {
      assert ChainInv(s, |s.retired| - 1);
      assert s.lastRetired[0] == s.retired[|s.retired| - 1];
      assert |s.joined| == |s.retired| - 1;
    }
    forall x | 0 <= x < |u.at| ensures ThreadInv(u, x) { assert ThreadInv(s, x); }
    forall i | 0 <= i < |u.retired| ensures ChainInv(u, i) { assert ChainInv(s, i); }
  }

  lemma {:induction false} EnqueueKeepsInv(s: State)
    requires Inv(s)
    ensures Inv(Next(s, Enqueue))
  {
    var u := Next(s, Enqueue);
    forall x | 0 <= x < |u.at| ensures ThreadInv(u, x) { if x < |s.at| { assert ThreadInv(s, x); } }
    forall i | 0 <= i < |u.retired| ensures ChainInv(u, i) { assert ChainInv(s, i); }
  }

  lemma {:induction false} TaskDoneKeepsInv(s: State, t: nat)
    requires Inv(s)
    ensures Inv(Next(s, TaskDone(t)))
  {
    var u := Next(s, TaskDone(t));
    forall x | 0 <= x < |u.at| ensures ThreadInv(u, x) { assert ThreadInv(s, x); }
    forall i | 0 <= i < |u.retired| ensures ChainInv(u, i) {
      assert ChainInv(s, i);
      assert ThreadInv(s, s.retired[i]);
    }
  }

  lemma {:induction false} ShutdownKeepsInv(s: State, a: Action)
    requires Inv(s) && (a.CallShutdown? || a.WorkersGone?)
    ensures Inv(Next(s, a))
  {
    var u := Next(s, a);
    forall x | 0 <= x < |u.at| ensures ThreadInv(u, x) { assert ThreadInv(s, x); }
    forall i | 0 <= i < |u.retired| ensures ChainInv(u, i) { assert ChainInv(s, i); }
  }

  lemma {:induction false} NextKeepsInv(s: State, a: Action)
    requires Inv(s)
    ensures Inv(Next(s, a))
  {
    match a
    case Retire(t) => RetireKeepsInv(s, t);
    case Join(t) => JoinKeepsInv(s, t);
    case JoinLast => JoinLastKeepsInv(s);
    case CallShutdown => ShutdownKeepsInv(s, CallShutdown);
    case WorkersGone => ShutdownKeepsInv(s, WorkersGone);
    case Enqueue => EnqueueKeepsInv(s);
    case TaskDone(t) => TaskDoneKeepsInv(s, t);
  }

  lemma {:induction false} RunKeepsInv(actions: seq<Action>)
    ensures Inv(Run(Initial(), actions))
  {
    if |actions| > 0 {
      RunKeepsInv(actions[..|actions| - 1]);
      NextKeepsInv(Run(Initial(), actions[..|actions| - 1]), actions[|actions| - 1]);
    }
  }

  // ---------- What every interleaving guarantees ----------

  /** Threads are joined in the order in which they retired, each at most once, and at most one
      retired thread waits to be joined by somebody else. */
  lemma {:induction false} JoinedOnceInRetirementOrder(actions: seq<Action>)
    ensures var s := Run(Initial(), actions);
            && |s.lastRetired| <= 1
            && s.joined <= s.retired
            && Distinct(s.joined)
            && (forall i :: 0 <= i < |s.joined| ==> s.joined[i] < |s.at| && s.at[s.joined[i]] == Finished)
  {
    RunKeepsInv(actions);
    var s := Run(Initial(), actions);
    forall i | 0 <= i < |s.joined| ensures s.joined[i] < |s.at| && s.at[s.joined[i]] == Finished {
      assert ChainInv(s, i);
    }
  }

  /** The first call of `shutdown` returns only after every thread that was ever created has finished, and then
      each of them has been joined exactly once. */
  lemma {:induction false} ShutdownWaitsForAllThreads(actions: seq<Action>)
    requires Run(Initial(), actions).shutdown == Done
    ensures var s := Run(Initial(), actions);
            && s.workers == {} && s.lastRetired == []
            && Distinct(s.joined)
            && (forall t :: 0 <= t < |s.at| ==> s.at[t] == Finished && t in s.joined)
  {
    RunKeepsInv(actions);
    var s := Run(Initial(), actions);
    forall t | 0 <= t < |s.at| ensures s.at[t] == Finished && t in s.joined {
      assert ThreadInv(s, t);
      var k :| 0 <= k < |s.retired| && s.retired[k] == t;
      assert ChainInv(s, k);
      assert s.joined[k] == t;
    }
  }

  // ---------- Shutdown can always be reached ----------

  function Weight(p: Place): nat {
    match p
    case Running => 3
    case Retiring => 2
    case Joining(_) => 1
    case Finished => 0
  }

  function Left(shutdown: Shutdown): nat {
    match shutdown
    case NotCalled => 3
    case Waiting => 2
    case JoiningLast => 1
    case Done => 0
  }

  function Weights(s: State): seq<nat> {
    seq(|s.at|, t requires 0 <= t < |s.at| => Weight(s.at[t]))
  }

  function Effort(s: State): nat {
    Total(Weights(s)) + Left(s.shutdown)
  }

  lemma {:induction false} ThreadMoves(s: State, u: State, t: nat, p: Place)
    requires t < |s.at| && u.at == s.at[t := p] && u.shutdown == s.shutdown && Weight(p) < Weight(s.at[t])
    ensures Effort(u) < Effort(s)
  {
    TotalUpdate(Weights(s), t, Weight(p));
    assert Weights(u) == Weights(s)[t := Weight(p)];
  }

  // A step that brings the end of shutdown nearer.
  lemma {:induction false} Helpful(s: State) returns (a: Action)
    requires Inv(s) && s.shutdown != Done
    ensures !a.Enqueue? && Effort(Next(s, a)) < Effort(s)
  {
    if s.shutdown == NotCalled {
      a := CallShutdown;
      assert Weights(Next(s, a)) == Weights(s);
    } else if t :| 0 <= t < |s.at| && s.at[t] == Running {
      a := TaskDone(t);
      ThreadMoves(s, Next(s, a), t, Retiring);
    } else if t :| 0 <= t < |s.at| && s.at[t] == Retiring {
      assert ThreadInv(s, t);
      a := Retire(t);
      ThreadMoves(s, Next(s, a), t, Joining(s.lastRetired));
    } else if i :| 0 <= i < |s.retired| && s.at[s.retired[i]] != Finished {
      var t := FirstJoinable(s, i);
      a := Join(t);
      ThreadMoves(s, Next(s, a), t, Finished);
    } else {
      a := HelpfulAtTheEnd(s);
    }
  }

  lemma {:induction false} FirstJoinable(s: State, i: nat) returns (t: nat)
    requires Inv(s) && i < |s.retired| && s.at[s.retired[i]] != Finished
    ensures t < |s.at| && s.at[t].Joining? && CanJoin(s, s.at[t].prev)
  {
    assert ChainInv(s, i);
    assert ThreadInv(s, s.retired[i]);
    if i > 0 && s.at[s.retired[i - 1]] != Finished {
      t := FirstJoinable(s, i - 1);
    } else {
      t := s.retired[i];
    }
  }

  lemma {:induction false} HelpfulAtTheEnd(s: State) returns (a: Action)
    requires Inv(s) && (s.shutdown == Waiting || s.shutdown == JoiningLast)
    requires forall t :: 0 <= t < |s.at| ==> s.at[t] != Running && s.at[t] != Retiring
    requires forall i :: 0 <= i < |s.retired| ==> s.at[s.retired[i]] == Finished
    ensures !a.Enqueue? && Effort(Next(s, a)) < Effort(s)
  {
    forall t | 0 <= t < |s.at| ensures t !in s.workers { assert ThreadInv(s, t); }
    assert s.workers == {};
    a := if s.shutdown == Waiting then WorkersGone else JoinLast;
    assert Weights(Next(s, a)) == Weights(s);
  }

  lemma {:induction false} RunLast(s: State, front: seq<Action>, a: Action)
    ensures Run(s, front + [a]) == Next(Run(s, front), a)
  {
    assert (front + [a])[..|front|] == front;
  }

  lemma {:induction false} RunCons(s: State, a: Action, rest: seq<Action>)
    ensures Run(s, [a] + rest) == Run(Next(s, a), rest)
  {
    if rest == [] {
      assert [a] + rest == [] + [a];
      RunLast(s, [], a);
    } else {
      var front, last := rest[..|rest| - 1], rest[|rest| - 1];
      assert rest == front + [last];
      assert [a] + rest == ([a] + front) + [last];
      RunCons(s, a, front);
      RunLast(s, [a] + front, last);
      RunLast(Next(s, a), front, last);
    }
  }

  lemma {:induction false} CanShutDown(s: State) returns (more: seq<Action>)
    requires Inv(s)
    ensures Inv(Run(s, more)) && Run(s, more).shutdown == Done && |Run(s, more).at| == |s.at|
    decreases Effort(s)
  {
    if s.shutdown == Done {
      more := [];
    } else {
      var a := Helpful(s);
      NextKeepsInv(s, a);
      var rest := CanShutDown(Next(s, a));
      RunCons(s, a, rest);
      more := [a] + rest;
    }
  }

  /** From every reachable state some schedule, without new tasks, ends the first call of `shutdown`. */
  lemma {:induction false} ShutdownIsAlwaysPossible(actions: seq<Action>) returns (more: seq<Action>)
    ensures var t := Run(Run(Initial(), actions), more);
            t.shutdown == Done && |t.at| == |Run(Initial(), actions).at|
  {
    RunKeepsInv(actions);
    more := CanShutDown(Run(Initial(), actions));
  }

  /** An enqueue creates one thread, which runs the task, until `shutdown` is called; after that it is refused. */
  lemma {:induction false} EnqueueOutcome(actions: seq<Action>)
    ensures var s := Run(Initial(), actions);
            var t := Next(s, Enqueue);
            if s.shutdown == NotCalled then t.at == s.at + [Running] && t.workers == s.workers + {|s.at|} else t == s
  {
    RunKeepsInv(actions);
  }

  /** A later call does not wait: it may return while a thread is still executing its task. */
  lemma {:induction false} LaterShutdownDoesNotWait()
    ensures var s := Run(Initial(), [Enqueue, CallShutdown, CallShutdown]);
            s.laterCalls == 1 && s.shutdown == Waiting && |s.at| == 1 && s.at[0] == Running
  {
    var actions := [Enqueue, CallShutdown, CallShutdown];
    assert actions[..2] == [Enqueue, CallShutdown] && actions[..2][..1] == [Enqueue];
    assert actions[..2][..1][..0] == [];
    assert Run(Initial(), [Enqueue]) == Next(Initial(), Enqueue);
    assert Run(Initial(), actions[..2]) == Next(Next(Initial(), Enqueue), CallShutdown);
  }

  /** The chain of joins never deadlocks: as long as a retired thread is unfinished, one of them can go on. */
  lemma {:induction false} JoinChainMakesProgress(actions: seq<Action>, i: nat)
    requires var s := Run(Initial(), actions);
             i < |s.retired| && s.retired[i] < |s.at| && s.at[s.retired[i]] != Finished
    ensures var s := Run(Initial(), actions);
            exists j :: 0 <= j <= i && s.retired[j] < |s.at| && s.at[s.retired[j]].Joining?
                        && Next(s, Join(s.retired[j])).at[s.retired[j]] == Finished
    decreases i
  {
    RunKeepsInv(actions);
    var s := Run(Initial(), actions);
    assert ChainInv(s, i);
    assert ThreadInv(s, s.retired[i]);
    if i > 0 && s.at[s.retired[i - 1]] != Finished {
      JoinChainMakesProgress(actions, i - 1);
      var j :| 0 <= j <= i - 1 && s.retired[j] < |s.at| && s.at[s.retired[j]].Joining?
               && Next(s, Join(s.retired[j])).at[s.retired[j]] == Finished;
    } else {
      assert CanJoin(s, s.at[s.retired[i]].prev);
      assert Next(s, Join(s.retired[i])).at[s.retired[i]] == Finished;
    }
  }
}
