/**
  `async_lock` in every interleaving. Each region guarded by `m_awaiter_lock` is one action;
  between two regions of a coroutine anything may happen: other coroutines barge in, a popped
  waiter is retried late, or the resume executor of a waiter turns out to be shut down.
 */
module AsyncLockProtocol {
  import opened Collections

  // Where a coroutine (with the guard that it holds) is with respect to the lock.
  datatype Place =
    | Out                         // neither waiting for the lock nor owning it
    | Trying(first: bool)         // top of lock_impl's loop; first: resume_synchronously
    | Queued                      // suspended in m_awaiters
    | Popped                      // taken off the list, retry() not called yet
    | Posted                      // set m_locked after a suspension, waiting for its resume executor
    | Breaking                    // resume_on threw, before the catch block's region
    | Owner                       // lock_impl or try_lock returned with the lock

  datatype State = State(
    locked: bool,                 // m_locked
    queue: seq<nat>,              // m_awaiters
    at: seq<Place>,
    enqueued: seq<nat>,           // waiters in the order in which they were queued
    popped: seq<nat>)             // waiters in the order in which they were taken off the list

  datatype Action =
    | Lock(c: nat) | TryLock(c: nat) | Enter(c: nat) | Retry(c: nat)
    | ResumeOn(c: nat, alive: bool) | Break(c: nat) | Unlock(c: nat)
    | Hand(c: nat, d: nat)        // moving, swapping or releasing a guard passes the ownership on

  function Initial(n: nat): State {
    State(false, [], seq(n, i => Out), [], [])
  }

  function Run(s: State, actions: seq<Action>): State {
    if |actions| == 0 then s
    else Next(Run(s, actions[..|actions| - 1]), actions[|actions| - 1])
  }

  function Put(s: State, c: nat, p: Place): State
    requires c < |s.at|
  {
    s.(at := s.at[c := p])
  }

  function Next(s: State, a: Action): State {
    if a.c >= |s.at| then s else
    var c := a.c;
    match a
    case Lock(_) => if s.at[c] == Out then Put(s, c, Trying(true)) else s
    case TryLock(_) => if s.at[c] == Out && !s.locked then Put(s.(locked := true), c, Owner) else s
    case Enter(_) => if s.at[c].Trying? then EnterNext(s, c, s.at[c].first) else s
    case Retry(_) => if s.at[c] == Popped then Put(s, c, Trying(false)) else s
    case ResumeOn(_, alive) => if s.at[c] == Posted then Put(s, c, if alive then Owner else Breaking) else s
    case Break(_) => if s.at[c] == Breaking then ReleaseNext(Put(s, c, Out)) else s   // throws broken_task
    case Unlock(_) => if s.at[c] == Owner then ReleaseNext(Put(s, c, Out)) else s
    case Hand(_, d) =>
      if d < |s.at| && s.at[c] == Owner && s.at[d] == Out then Put(Put(s, c, Out), d, Owner) else s
  }

  // lock_impl's region: take the lock, or join the list before the region ends.
  function EnterNext(s: State, c: nat, first: bool): State
    requires c < |s.at|
  {
    if !s.locked then Put(s.(locked := true), c, if first then Owner else Posted)
    else Put(s.(queue := s.queue + [c], enqueued := s.enqueued + [c]), c, Queued)
  }

  // The region of unlock and of the catch block: free the lock and pop one waiter.
  function ReleaseNext(s: State): State {
    var t := s.(locked := false);
    if |s.queue| == 0 then t
    else if s.queue[0] < |s.at| then
      Put(t.(queue := s.queue[1..], popped := s.popped + [s.queue[0]]), s.queue[0], Popped)
    else t
  }

  // ---------- Invariant ----------

  predicate Holds(p: Place) {
    p == Posted || p == Breaking || p == Owner
  }

  // A popped waiter that will try again.
  predicate Retrying(p: Place) {
    p == Popped || p == Trying(false)
  }

  predicate OwnerInv(s: State) {
    && (!s.locked ==> forall c :: 0 <= c < |s.at| ==> !Holds(s.at[c]))
    && (s.locked ==> exists c :: 0 <= c < |s.at| && Holds(s.at[c]))
    && (forall c, d :: 0 <= c < |s.at| && 0 <= d < |s.at| && Holds(s.at[c]) && Holds(s.at[d]) ==> c == d)
  }

  predicate QueueInv(s: State) {
    && (forall i :: 0 <= i < |s.queue| ==> s.queue[i] < |s.at| && s.at[s.queue[i]] == Queued)
    && Distinct(s.queue)
    && (forall c :: 0 <= c < |s.at| && s.at[c] == Queued ==> c in s.queue)
  }

  predicate WakeInv(s: State) {
    !s.locked && s.queue != [] ==> exists c :: 0 <= c < |s.at| && Retrying(s.at[c])
  }

  predicate LogInv(s: State) {
    s.enqueued == s.popped + s.queue
  }

  predicate Inv(s: State) {
    OwnerInv(s) && QueueInv(s) && WakeInv(s) && LogInv(s)
  }

  lemma {:induction false} ReleaseKeepsLog(s: State)
    requires LogInv(s) && forall i :: 0 <= i < |s.queue| ==> s.queue[i] < |s.at|
    ensures LogInv(ReleaseNext(s))
  {
    if s.queue != [] { assert s.queue == [s.queue[0]] + s.queue[1..]; }
  }

  lemma {:induction false} ReleaseKeepsInv(s: State, c: nat)
    requires Inv(s) && c < |s.at| && Holds(s.at[c])
    ensures Inv(ReleaseNext(Put(s, c, Out)))
  {
    ReleaseKeepsPlaces(s, c);
    ReleaseKeepsLog(Put(s, c, Out));
  }

  lemma {:induction false} ReleaseKeepsPlaces(s: State, c: nat)
    requires OwnerInv(s) && QueueInv(s) && c < |s.at| && Holds(s.at[c])
    ensures var t := ReleaseNext(Put(s, c, Out)); OwnerInv(t) && QueueInv(t) && WakeInv(t)
  {
    var u := ReleaseNext(Put(s, c, Out));
    if s.queue != [] {
      var d := s.queue[0];
      assert u.at[d] == Popped;
      forall e | 0 <= e < |u.at| && u.at[e] == Queued ensures e in u.queue {
        assert e in s.queue;
        assert s.queue == [d] + u.queue;
      }
    }
  }

  lemma {:induction false} QueueingKeepsInv(s: State, c: nat)
    requires Inv(s) && c < |s.at| && s.at[c].Trying? && s.locked
    ensures Inv(EnterNext(s, c, s.at[c].first))
  {
    var t := EnterNext(s, c, s.at[c].first);
    var d :| 0 <= d < |s.at| && Holds(s.at[d]);
    assert Holds(t.at[d]);
  }

  lemma {:induction false} TakingKeepsInv(s: State, c: nat)
    requires Inv(s) && c < |s.at| && s.at[c].Trying? && !s.locked
    ensures Inv(EnterNext(s, c, s.at[c].first))
  {
    assert Holds(EnterNext(s, c, s.at[c].first).at[c]);
  }

  lemma {:induction false} EnterKeepsInv(s: State, c: nat)
    requires Inv(s) && c < |s.at| && s.at[c].Trying?
    ensures Inv(EnterNext(s, c, s.at[c].first))
  {
    if s.locked { QueueingKeepsInv(s, c); } else { TakingKeepsInv(s, c); }
  }

  lemma {:induction false} PutKeepsInv(s: State, c: nat, p: Place)
    requires Inv(s) && c < |s.at| && s.at[c] != Queued && p != Queued
    requires Holds(s.at[c]) == Holds(p)
    requires Retrying(s.at[c]) ==> Retrying(p)
    ensures Inv(Put(s, c, p))
  {
    var t := Put(s, c, p);
    if s.locked {
      var d :| 0 <= d < |s.at| && Holds(s.at[d]);
      assert Holds(t.at[d]);
    } else if s.queue != [] {
      var d :| 0 <= d < |s.at| && Retrying(s.at[d]);
      assert Retrying(t.at[d]);
    }
  }

  lemma {:induction false} HandKeepsInv(s: State, c: nat, d: nat)
    requires Inv(s) && c < |s.at| && d < |s.at| && s.at[c] == Owner && s.at[d] == Out
    ensures Inv(Put(Put(s, c, Out), d, Owner))
  {
    assert Holds(Put(Put(s, c, Out), d, Owner).at[d]);
  }

  lemma {:induction false} TryLockKeepsInv(s: State, c: nat)
    requires Inv(s) && c < |s.at| && s.at[c] == Out && !s.locked
    ensures Inv(Put(s.(locked := true), c, Owner))
  {
    assert Holds(Put(s.(locked := true), c, Owner).at[c]);
  }

  lemma {:induction false} NextKeepsInv(s: State, a: Action)
    requires Inv(s)
    ensures Inv(Next(s, a))
  {
    if a.c < |s.at| {
      var c := a.c;
      match a
      case Lock(_) => if s.at[c] == Out { PutKeepsInv(s, c, Trying(true)); }
      case TryLock(_) => if s.at[c] == Out && !s.locked { TryLockKeepsInv(s, c); }
      case Enter(_) => if s.at[c].Trying? { EnterKeepsInv(s, c); }
      case Retry(_) => if s.at[c] == Popped { PutKeepsInv(s, c, Trying(false)); }
      case ResumeOn(_, alive) => if s.at[c] == Posted { PutKeepsInv(s, c, if alive then Owner else Breaking); }
      case Break(_) =>
        if s.at[c] == Breaking { ReleaseKeepsInv(s, c); }
      case Unlock(_) => if s.at[c] == Owner { ReleaseKeepsInv(s, c); }
      case Hand(_, d) => if d < |s.at| && s.at[c] == Owner && s.at[d] == Out { HandKeepsInv(s, c, d); }
    }
  }

  lemma {:induction false} RunKeepsInv(n: nat, actions: seq<Action>)
    ensures Inv(Run(Initial(n), actions))
  {
    if |actions| > 0 {
      RunKeepsInv(n, actions[..|actions| - 1]);
      NextKeepsInv(Run(Initial(n), actions[..|actions| - 1]), actions[|actions| - 1]);
    }
  }

  // ---------- What every interleaving guarantees ----------

  /** `m_locked` is set exactly when some coroutine or guard owns the lock, and never two do. */
  lemma {:induction false} LockedIffOneOwner(n: nat, actions: seq<Action>)
    ensures var s := Run(Initial(n), actions);
            && (s.locked <==> exists c :: 0 <= c < |s.at| && Holds(s.at[c]))
            && (forall c, d :: 0 <= c < |s.at| && 0 <= d < |s.at| && Holds(s.at[c]) && Holds(s.at[d]) ==> c == d)
  {
    RunKeepsInv(n, actions);
  }

  /** Every suspended coroutine is on the list exactly once, and nothing else is. */
  lemma {:induction false} QueuedExactlyOnce(n: nat, actions: seq<Action>, c: nat)
    requires c < |Run(Initial(n), actions).at|
    ensures var s := Run(Initial(n), actions);
            multiset(s.queue)[c] == if s.at[c] == Queued then 1 else 0
  {
    RunKeepsInv(n, actions);
    Once(Run(Initial(n), actions).queue, c);
  }

  lemma {:induction false} CountOnce(before: seq<nat>, c: nat, after: seq<nat>)
    requires c !in before && c !in after
    ensures multiset(before + [c] + after)[c] == 1
  {
  }

  lemma {:induction false} Once(ids: seq<nat>, c: nat)
    requires Distinct(ids)
    ensures multiset(ids)[c] == if c in ids then 1 else 0
  {
    if c in ids {
      var k :| 0 <= k < |ids| && ids[k] == c;
      var before, after := ids[..k], ids[k + 1..];
      assert c !in before && c !in after;
      assert ids == before + [c] + after;
      CountOnce(before, c, after);
    }
  }

  /** Waiters are taken off the list in the order in which they were queued. */
  lemma {:induction false} PoppedInQueueOrder(n: nat, actions: seq<Action>)
    ensures var s := Run(Initial(n), actions); s.enqueued == s.popped + s.queue
  {
    RunKeepsInv(n, actions);
  }

  /** A free lock with waiters on its list always has a popped waiter that will try again, and
      that waiter takes the lock when it does. */
  lemma {:induction false} NoWaiterIsStranded(n: nat, actions: seq<Action>)
    ensures var s := Run(Initial(n), actions);
            !s.locked && s.queue != [] ==>
              exists c :: 0 <= c < |s.at| && Retrying(s.at[c]) && Next(Next(s, Retry(c)), Enter(c)).at[c] == Posted
  {
    RunKeepsInv(n, actions);
    var s := Run(Initial(n), actions);
    if !s.locked && s.queue != [] {
      var c :| 0 <= c < |s.at| && Retrying(s.at[c]);
      assert Next(Next(s, Retry(c)), Enter(c)).at[c] == Posted;
    }
  }

  // ---------- What each operation does ----------

  predicate Free(s: State) {
    forall d :: 0 <= d < |s.at| ==> !Holds(s.at[d])
  }

  // The lock is free, and the first waiter, if there is one, is popped.
  predicate PassedOn(s: State, t: State) {
    && Free(t) && |t.at| == |s.at|
    && (s.queue == [] ==> t.queue == [])
    && (s.queue != [] ==> t.queue == s.queue[1..] && s.queue[0] < |t.at| && t.at[s.queue[0]] == Popped)
  }

  /** `try_lock` succeeds if and only if nobody holds the lock. `lock` then succeeds at once, without its executor, and
      otherwise the coroutine joins the end of the list. */
  lemma {:induction false} LockOutcome(n: nat, actions: seq<Action>, c: nat)
    requires var s := Run(Initial(n), actions); c < |s.at| && s.at[c] == Out
    ensures var s := Run(Initial(n), actions);
            var t, u := Next(s, TryLock(c)), Next(Next(s, Lock(c)), Enter(c));
            if Free(s) then t.at[c] == u.at[c] == Owner && t.queue == u.queue == s.queue
            else t == s && u.at[c] == Queued && u.queue == s.queue + [c]
  {
    RunKeepsInv(n, actions);
  }

  /** A popped waiter that retries takes a free lock and goes to its executor, or joins the end of the list again. */
  lemma {:induction false} RetryOutcome(n: nat, actions: seq<Action>, c: nat)
    requires var s := Run(Initial(n), actions); c < |s.at| && Retrying(s.at[c])
    ensures var s := Run(Initial(n), actions);
            var t := Next(Next(s, Retry(c)), Enter(c));
            if Free(s) then t.at[c] == Posted && t.queue == s.queue else t.at[c] == Queued && t.queue == s.queue + [c]
  {
    RunKeepsInv(n, actions);
  }

  /** A waiter that took the lock owns it if and only if its executor is alive; otherwise it passes the lock on. */
  lemma {:induction false} ResumeOutcome(n: nat, actions: seq<Action>, c: nat)
    requires var s := Run(Initial(n), actions); c < |s.at| && s.at[c] == Posted
    ensures var s := Run(Initial(n), actions);
            var dead := Next(s, ResumeOn(c, false));
            && Next(s, ResumeOn(c, true)).at[c] == Owner
            && dead.at[c] == Breaking && !Free(dead)
            && Next(dead, Break(c)).at[c] == Out && PassedOn(s, Next(dead, Break(c)))
  {
    RunKeepsInv(n, actions);
    var s := Run(Initial(n), actions);
    var dead := Next(s, ResumeOn(c, false));
    assert Holds(dead.at[c]);
    NextKeepsInv(s, ResumeOn(c, false));
    NextKeepsInv(dead, Break(c));
  }

  /** The owner's `unlock` passes the lock on; a guard can hand the ownership over instead. */
  lemma {:induction false} UnlockOutcome(n: nat, actions: seq<Action>, c: nat, d: nat)
    requires var s := Run(Initial(n), actions); c < |s.at| && d < |s.at| && s.at[c] == Owner
    ensures var s := Run(Initial(n), actions);
            && Next(s, Unlock(c)).at[c] == Out && PassedOn(s, Next(s, Unlock(c)))
            && (s.at[d] == Out ==> Next(s, Hand(c, d)).at[c] == Out && Next(s, Hand(c, d)).at[d] == Owner)
  {
    RunKeepsInv(n, actions);
    NextKeepsInv(Run(Initial(n), actions), Unlock(c));
  }

  // A coroutine that was never queued does not go through its executor.
  predicate SynchronousInv(s: State) {
    forall c :: 0 <= c < |s.at| && (Retrying(s.at[c]) || s.at[c] == Posted || s.at[c] == Breaking) ==> c in s.popped
  }

  lemma {:induction false} NextKeepsSynchronous(s: State, a: Action)
    requires SynchronousInv(s)
    ensures SynchronousInv(Next(s, a))
  {
  }

  /** Only a coroutine that was queued and popped goes through its executor, or fails. */
  lemma {:induction false} OnlyQueuedWaitersUseTheirExecutor(n: nat, actions: seq<Action>)
    ensures SynchronousInv(Run(Initial(n), actions))
  {
    if |actions| > 0 {
      OnlyQueuedWaitersUseTheirExecutor(n, actions[..|actions| - 1]);
      NextKeepsSynchronous(Run(Initial(n), actions[..|actions| - 1]), actions[|actions| - 1]);
    }
  }

  // ---------- The lock never jams ----------

  function Weight(p: Place): nat {
    match p
    case Out => 0
    case Owner => 1
    case Breaking => 1
    case Posted => 2
    case Trying(_) => 3
    case Popped => 4
    case Queued => 5
  }

  function Weights(s: State): seq<nat> {
    seq(|s.at|, c requires 0 <= c < |s.at| => Weight(s.at[c]))
  }

  function Effort(s: State): nat {
    Total(Weights(s))
  }

  lemma {:induction false} EffortOfPut(s: State, c: nat, p: Place)
    requires c < |s.at|
    ensures Effort(Put(s, c, p)) == Effort(s) - Weight(s.at[c]) + Weight(p)
  {
    TotalUpdate(Weights(s), c, Weight(p));
    assert Weights(Put(s, c, p)) == Weights(s)[c := Weight(p)];
  }

  lemma {:induction false} SameEffort(s: State, t: State)
    requires s.at == t.at
    ensures Effort(s) == Effort(t)
  {
  }

  lemma {:induction false} EffortOfRelease(s: State, c: nat)
    requires QueueInv(s) && c < |s.at| && Weight(s.at[c]) == 1
    ensures Effort(ReleaseNext(Put(s, c, Out))) < Effort(s)
  {
    var t := Put(s, c, Out);
    EffortOfPut(s, c, Out);
    if s.queue != [] {
      var u := t.(locked := false, queue := s.queue[1..], popped := s.popped + [s.queue[0]]);
      SameEffort(t, u);
      EffortOfPut(u, s.queue[0], Popped);
    } else {
      SameEffort(t, t.(locked := false));
    }
  }

  // A step that brings the end nearer.
  function Helpful(s: State, c: nat): Action
    requires c < |s.at|
  {
    match s.at[c]
    case Owner => Unlock(c)
    case Breaking => Break(c)
    case Posted => ResumeOn(c, true)
    case Popped => Retry(c)
    case _ => Enter(c)
  }

  lemma {:induction false} HelpfulStep(s: State, c: nat)
    requires Inv(s) && c < |s.at|
    requires Holds(s.at[c]) || (!s.locked && (s.at[c] == Popped || s.at[c].Trying?))
    ensures Effort(Next(s, Helpful(s, c))) < Effort(s)
  {
    match s.at[c]
    case Owner => EffortOfRelease(s, c);
    case Breaking => EffortOfRelease(s, c);
    case Posted => EffortOfPut(s, c, Owner);
    case Popped => EffortOfPut(s, c, Trying(false));
    case Trying(first) =>
      SameEffort(s, s.(locked := true));
      EffortOfPut(s.(locked := true), c, if first then Owner else Posted);
  }

  lemma {:induction false} SomeoneCanMove(s: State) returns (c: nat)
    requires Inv(s) && exists d :: 0 <= d < |s.at| && s.at[d] != Out
    ensures c < |s.at|
    ensures Holds(s.at[c]) || (!s.locked && (s.at[c] == Popped || s.at[c].Trying?))
  {
    if s.locked {
      c :| 0 <= c < |s.at| && Holds(s.at[c]);
    } else if s.queue != [] {
      c :| 0 <= c < |s.at| && Retrying(s.at[c]);
    } else {
      c :| 0 <= c < |s.at| && s.at[c] != Out;
    }
  }

  lemma {:induction false} CanQuiesce(s: State) returns (more: seq<Action>)
    requires Inv(s)
    ensures var t := Run(s, more); !t.locked && t.queue == [] && forall c :: 0 <= c < |t.at| ==> t.at[c] == Out
    decreases Effort(s)
  {
    if exists d :: 0 <= d < |s.at| && s.at[d] != Out {
      var c := SomeoneCanMove(s);
      var a := Helpful(s, c);
      HelpfulStep(s, c);
      NextKeepsInv(s, a);
      var rest := CanQuiesce(Next(s, a));
      RunCons(s, a, rest);
      more := [a] + rest;
    } else {
      more := [];
    }
  }

  lemma {:induction false} RunLast(s: State, front: seq<Action>, a: Action)
    ensures Run(s, front + [a]) == Next(Run(s, front), a)
  {
    assert (front + [a])[..|front|] == front;
  }

  lemma {:induction false} RunCons(s: State, a: Action, rest: seq<Action>)
    ensures Run(s, [a] + rest) == Run(Next(s, a), rest)
  {
    if rest == [] {
      assert [a] + rest == [] + [a];
      RunLast(s, [], a);
    } else {
      var front, last := rest[..|rest| - 1], rest[|rest| - 1];
      assert rest == front + [last];
      assert [a] + rest == ([a] + front) + [last];
      RunCons(s, a, front);
      RunLast(s, [a] + front, last);
      RunLast(Next(s, a), front, last);
    }
  }

  /** From every reachable state some schedule serves everybody: all coroutines get out and the lock ends free. */
  lemma {:induction false} LockNeverJams(n: nat, actions: seq<Action>) returns (more: seq<Action>)
    ensures var t := Run(Run(Initial(n), actions), more);
            !t.locked && t.queue == [] && forall c :: 0 <= c < |t.at| ==> t.at[c] == Out
  {
    RunKeepsInv(n, actions);
    more := CanQuiesce(Run(Initial(n), actions));
  }

  /** So when nobody is on the way to the lock and nobody owns it, nobody waits for it either. */
  lemma {:induction false} QuietLockHasNoWaiters(n: nat, actions: seq<Action>)
    requires var s := Run(Initial(n), actions);
             forall c :: 0 <= c < |s.at| ==> s.at[c] == Out || s.at[c] == Queued
    ensures var s := Run(Initial(n), actions);
            !s.locked && s.queue == [] && forall c :: 0 <= c < |s.at| ==> s.at[c] == Out
  {
    RunKeepsInv(n, actions);
  }
}

/**
  `unlock` and the retries nested in it, run to completion without interference. A waiter whose
  resume executor is shut down takes the lock, fails in resume_on, passes the lock on inside its
  catch block and only then throws.
 */
module AsyncLockHandOff {
  import opened Collections

  datatype Waiter = Waiter(id: nat, alive: bool)

  // How many waiters at the front have a dead resume executor.
  function DeadPrefix(waiters: seq<Waiter>): (d: nat)
    ensures d <= |waiters|
    ensures forall i :: 0 <= i < d ==> !waiters[i].alive
    ensures d < |waiters| ==> waiters[d].alive
  {
    if |waiters| == 0 || waiters[0].alive then 0 else 1 + DeadPrefix(waiters[1..])
  }

  // The ids of the waiters, last first.
  function Unwound(waiters: seq<Waiter>): seq<nat> {
    if |waiters| == 0 then [] else Unwound(waiters[1..]) + [waiters[0].id]
  }

  function Ids(waiters: seq<Waiter>): seq<nat> {
    seq(|waiters|, i requires 0 <= i < |waiters| => waiters[i].id)
  }

  function OwnerId(owner: Option<nat>): multiset<nat> {
    if owner.Some? then multiset{owner.value} else multiset{}
  }

  lemma {:induction false} UnwoundIds(waiters: seq<Waiter>)
    ensures multiset(Unwound(waiters)) == multiset(Ids(waiters))
  {
    if waiters != [] {
      UnwoundIds(waiters[1..]);
      assert Ids(waiters) == [waiters[0].id] + Ids(waiters[1..]);
    }
  }

  lemma {:induction false} IdsAround(waiters: seq<Waiter>, d: nat)
    requires d < |waiters|
    ensures Ids(waiters) == Ids(waiters[..d]) + [waiters[d].id] + Ids(waiters[d + 1..])
  {
  }

  lemma {:induction false} CountAround(a: seq<nat>, x: nat, b: seq<nat>)
    ensures multiset(a + [x] + b) == multiset(a) + multiset{x} + multiset(b)
  {
  }

  lemma {:induction false} UnwoundAt(waiters: seq<Waiter>, i: nat)
    requires i < |waiters|
    ensures |Unwound(waiters)| == |waiters| && Unwound(waiters)[|waiters| - 1 - i] == waiters[i].id
  {
    if |waiters| == 1 {
      assert Unwound(waiters[1..]) == [];
    } else {
      UnwoundAt(waiters[1..], if i == 0 then 0 else i - 1);
    }
  }

  lemma {:induction false} FailuresUnwind(waiters: seq<Waiter>, before: seq<nat>, broken: seq<nat>)
    requires before <= broken && broken[|before|..] == Unwound(waiters[..DeadPrefix(waiters)])
    ensures var d := DeadPrefix(waiters);
            |broken| == |before| + d && forall i :: 0 <= i < d ==> broken[|broken| - 1 - i] == waiters[i].id
  {
    var d := DeadPrefix(waiters);
    var dead := waiters[..d];
    assert d == 0 ==> dead == [];
    if d > 0 { UnwoundAt(dead, 0); }
    forall i | 0 <= i < d ensures |broken| == |before| + d && broken[|broken| - 1 - i] == waiters[i].id {
      UnwoundAt(dead, i);
      assert broken[|before|..][d - 1 - i] == broken[|before| + d - 1 - i];
    }
  }

  // The lock passed down `waiters`: the first living one owns it, those before it have failed.
  predicate Passed(waiters: seq<Waiter>, failed: seq<nat>, locked: bool, owner: Option<nat>, awaiters: seq<Waiter>) {
    var d := DeadPrefix(waiters);
    && failed == Unwound(waiters[..d])
    && if d < |waiters| then locked && owner == Some(waiters[d].id) && awaiters == waiters[d + 1..]
       else !locked && owner == None && awaiters == []
  }

  /** The hand-off conserves the waiters: each is among the failures, owns the lock, or is still queued, once. */
  lemma {:induction false} HandOffConservesWaiters(waiters: seq<Waiter>, failed: seq<nat>, locked: bool,
                                                   owner: Option<nat>, awaiters: seq<Waiter>)
    requires Passed(waiters, failed, locked, owner, awaiters)
    ensures multiset(failed) + OwnerId(owner) + multiset(Ids(awaiters)) == multiset(Ids(waiters))
  {
    var d := DeadPrefix(waiters);
    UnwoundIds(waiters[..d]);
    if d < |waiters| {
      IdsAround(waiters, d);
      CountAround(Ids(waiters[..d]), waiters[d].id, Ids(waiters[d + 1..]));
    } else {
      assert waiters[..d] == waiters;
    }
  }

  class AsyncLock {
    var locked: bool              // m_locked
    var awaiters: seq<Waiter>     // m_awaiters
    var owner: Option<nat>        // who owns the lock
    var broken: seq<nat>          // waiters that failed with broken_task, in the order of their throws

    ghost predicate Valid()
      reads this
    {
      locked <==> owner.Some?
    }

    constructor ()
      ensures Valid() && !locked && awaiters == [] && broken == []
    {
      locked, awaiters, owner, broken := false, [], None, [];
    }

    ghost predicate PassedTo(waiters: seq<Waiter>, before: seq<nat>)
      reads this
    {
      before <= broken && Passed(waiters, broken[|before|..], locked, owner, awaiters)
    }

    method PopFront() returns (awaiter: Option<Waiter>)
      modifies this`awaiters
      ensures old(awaiters) == [] ==> awaiter == None && awaiters == []
      ensures old(awaiters) != [] ==> awaiter == Some(old(awaiters)[0]) && awaiters == old(awaiters)[1..]
    {
      if |awaiters| == 0 {
        awaiter := None;
      } else {
        awaiter := Some(awaiters[0]);
        awaiters := awaiters[1..];
      }
    }

    /** `lock` called by w: it takes a free lock at once, whatever its executor, or queues up. */
    method Lock(w: Waiter)
      requires Valid()
      modifies this
      ensures Valid() && locked && broken == old(broken)
      ensures !old(locked) ==> owner == Some(w.id) && awaiters == old(awaiters)
      ensures old(locked) ==> owner == old(owner) && awaiters == old(awaiters) + [w]
    {
      if !locked {
        locked, owner := true, Some(w.id);
        return;
      }
      awaiters := awaiters + [w];
    }

    /** lock_impl of w from its suspension point on. */
    method Retry(w: Waiter)
      requires Valid()
      modifies this
      ensures Valid()
      ensures old(locked) ==> locked && owner == old(owner) && awaiters == old(awaiters) + [w] && broken == old(broken)
      ensures !old(locked) ==> PassedTo([w] + old(awaiters), old(broken))
      decreases |awaiters|
    {
      if locked {
        awaiters := awaiters + [w];
        return;
      }
      locked, owner := true, Some(w.id);
      ghost var waiters := [w] + awaiters;
      assert waiters[1..] == awaiters;
      if w.alive {
        return;
      }
      locked, owner := false, None;
      var awaiter := PopFront();
      if awaiter.Some? {
        Retry(awaiter.value);
        assert [awaiter.value] + old(awaiters)[1..] == old(awaiters);
      }
      broken := broken + [w.id];
      ghost var d := DeadPrefix(waiters);
      assert waiters[..d][1..] == old(awaiters)[..d - 1];
    }

    /** Hands the lock to the first waiter whose resume executor is alive. Every waiter before it
        fails exactly once. Without a living waiter the lock ends free and the list empty. */
    method Unlock() returns (ok: bool)
      requires Valid()
      modifies this
      ensures Valid()
      ensures ok == old(locked)
      ensures !ok ==> locked == old(locked) && owner == old(owner) && awaiters == old(awaiters) && broken == old(broken)
      ensures ok ==> PassedTo(old(awaiters), old(broken))
      ensures ok ==> var waiters, d := old(awaiters), DeadPrefix(old(awaiters));
                     && (d < |waiters| ==> owner == Some(waiters[d].id) && awaiters == waiters[d + 1..])
                     && (d == |waiters| ==> owner == None && awaiters == [])
                     && old(broken) <= broken && |broken| == |old(broken)| + d
                     && forall i :: 0 <= i < d ==> broken[|broken| - 1 - i] == waiters[i].id
      ensures ok ==> multiset(broken[|old(broken)|..]) + OwnerId(owner) + multiset(Ids(awaiters)) ==
                     multiset(Ids(old(awaiters)))
    {
      if !locked {
        return false;                           // operation_not_permitted
      }
      locked, owner := false, None;
      var awaiter := PopFront();
      if awaiter.Some? {
        Retry(awaiter.value);
        assert [awaiter.value] + old(awaiters)[1..] == old(awaiters);
      }
      HandOffConservesWaiters(old(awaiters), broken[|old(broken)|..], locked, owner, awaiters);
      FailuresUnwind(old(awaiters), old(broken), broken);
      return true;
    }
  }
}
