/**
  `async_condition_variable` in every interleaving. The async lock appears as its owner only;
  the condition variable's own mutex is held by an awaiter from before it releases the async lock
  until it is queued. Notifications take that mutex for one action.
 */
module ConditionVariable {
  import opened Collections

  // `loop` tells the predicate overload of await from the plain one.
  datatype Place =
    | Outside                     // does not own the async lock and does not want it
    | Inside                      // owns the async lock
    | Entering(loop: bool)        // decided to await, before locking the mutex
    | Guarded(loop: bool)         // holds the mutex and the async lock
    | Released(loop: bool)        // holds the mutex, has released the async lock, not queued yet
    | Queued(loop: bool)          // suspended in m_awaiters
    | Popped(loop: bool)          // taken by a notification, not resumed yet
    | Relocking(loop: bool)       // resumed on its executor, waiting for the async lock
    | Returned                    // the predicate overload returned normally

  datatype State = State(
    owner: Option<nat>,           // who owns the async lock
    mutex: Option<nat>,           // who holds m_lock between two actions
    queue: seq<nat>,              // m_awaiters
    at: seq<Place>,
    condition: bool,              // the condition, changed only by the owner of the async lock
    owed: bool,                   // no notify_all has run since the condition was last made true
    arrived: seq<nat>,            // awaiters in the order in which they were queued
    notified: seq<nat>)           // awaiters in the order in which notifications took them

  datatype Action =
    | Lock(c: nat) | Unlock(c: nat)
    | Test(c: nat)                // one turn of the predicate loop
    | Await(c: nat)               // the plain overload
    | TakeMutex(c: nat) | ReleaseLock(c: nat) | Enqueue(c: nat)
    | ResumeOn(c: nat, alive: bool)
    | FailToRelock(c: nat)        // the resume executor is shut down while the awaiter waits for the async lock
    | Change(c: nat, value: bool)
    | NotifyOne(c: nat) | NotifyAll(c: nat)

  function Initial(n: nat): State {
    State(None, None, [], seq(n, i => Outside), false, false, [], [])
  }

  function Run(s: State, actions: seq<Action>): State {
    if |actions| == 0 then s
    else Next(Run(s, actions[..|actions| - 1]), actions[|actions| - 1])
  }

  function Put(s: State, c: nat, p: Place): State
    requires c < |s.at|
  {
    s.(at := s.at[c := p])
  }

  function Next(s: State, a: Action): State {
    if a.c >= |s.at| then s else
    var c := a.c;
    var p := s.at[c];
    match a
    case Lock(_) =>
      if s.owner == None && (p == Outside || p.Relocking?) then Put(s.(owner := Some(c)), c, Inside) else s
    case Unlock(_) => if p == Inside || p == Returned then Put(s.(owner := None), c, Outside) else s
    case Test(_) => if p == Inside then Put(s, c, if s.condition then Returned else Entering(true)) else s
    case Await(_) => if p == Inside then Put(s, c, Entering(false)) else s
    case TakeMutex(_) => if p.Entering? && s.mutex == None then Put(s.(mutex := Some(c)), c, Guarded(p.loop)) else s
    case ReleaseLock(_) => if p.Guarded? then Put(s.(owner := None), c, Released(p.loop)) else s
    case Enqueue(_) =>
      if p.Released? then Put(s.(mutex := None, queue := s.queue + [c], arrived := s.arrived + [c]), c, Queued(p.loop))
      else s
    case ResumeOn(_, alive) => if p.Popped? then Put(s, c, if alive then Relocking(p.loop) else Outside) else s
    case FailToRelock(_) => if p.Relocking? then Put(s, c, Outside) else s
    case Change(_, value) =>
      if p == Inside || p == Returned then
        Put(s.(condition := value, owed := value || s.owed), c, Inside)
      else s
    case NotifyOne(_) => if s.mutex == None && |s.queue| > 0 then Take(s, 1) else s
    case NotifyAll(_) => if s.mutex == None then Take(s, |s.queue|).(owed := false) else s
  }

  // The first k awaiters leave the list; each is about to be resumed.
  function Take(s: State, k: nat): State
    requires k <= |s.queue|
  {
    s.(queue := s.queue[k..], notified := s.notified + s.queue[..k],
       at := seq(|s.at|, i requires 0 <= i < |s.at| =>
                 if i in s.queue[..k] && s.at[i].Queued? then Popped(s.at[i].loop) else s.at[i]))
  }

  // ---------- Invariant ----------

  predicate Owns(p: Place) {
    p == Inside || p.Entering? || p.Guarded? || p == Returned
  }

  predicate HoldsMutex(p: Place) {
    p.Guarded? || p.Released?
  }

  // Has released the async lock in order to wait and has not been notified.
  predicate Waiting(p: Place) {
    p.Released? || p.Queued?
  }

  predicate PlaceInv(s: State, c: nat)
    requires c < |s.at|
  {
    var p := s.at[c];
    && (Owns(p) <==> s.owner == Some(c))
    && (HoldsMutex(p) <==> s.mutex == Some(c))
    && (p.Queued? <==> c in s.queue)
    && (p == Returned ==> s.condition)
    && ((p.Entering? || p.Guarded?) && p.loop ==> !s.condition)
    && (Waiting(p) && p.loop && s.condition ==> s.owed)
  }

  predicate Inv(s: State) {
    && (forall c :: 0 <= c < |s.at| ==> PlaceInv(s, c))
    && (forall i :: 0 <= i < |s.queue| ==> s.queue[i] < |s.at|)
    && Distinct(s.queue)
    && (s.owner.Some? ==> s.owner.value < |s.at|)
    && (s.mutex.Some? ==> s.mutex.value < |s.at|)
    && s.arrived == s.notified + s.queue
  }

  lemma {:induction false} TakeKeepsInv(s: State, k: nat)
    requires Inv(s) && k <= |s.queue|
    ensures Inv(Take(s, k))
  {
    var t := Take(s, k);
    assert s.queue == s.queue[..k] + s.queue[k..];
    forall c | 0 <= c < |s.at| ensures PlaceInv(t, c) {
      assert PlaceInv(s, c);
      if c in s.queue[..k] { assert c !in s.queue[k..]; }
    }
  }

  lemma {:induction false} NotifyAllKeepsInv(s: State, c: nat)
    requires Inv(s) && c < |s.at|
    ensures Inv(Next(s, NotifyAll(c)))
  {
    if s.mutex == None {
      TakeKeepsInv(s, |s.queue|);
      var t := Next(s, NotifyAll(c));
      forall d | 0 <= d < |s.at| ensures PlaceInv(t, d) {
        assert PlaceInv(Take(s, |s.queue|), d);
        assert s.queue[..|s.queue|] == s.queue;
        assert PlaceInv(s, d);
      }
    }
  }

  lemma {:induction false} NextKeepsPlace(s: State, a: Action, d: nat)
    requires Inv(s) && a.c < |s.at| && d < |s.at| && !a.NotifyOne? && !a.NotifyAll?
    ensures PlaceInv(Next(s, a), d)
  {
    assert PlaceInv(s, a.c);
    assert PlaceInv(s, d);
  }

  lemma {:induction false} NextKeepsInv(s: State, a: Action)
    requires Inv(s)
    ensures Inv(Next(s, a))
  {
    if a.c < |s.at| {
      if a.NotifyAll? { NotifyAllKeepsInv(s, a.c); }
      else if a.NotifyOne? { if |s.queue| > 0 { TakeKeepsInv(s, 1); } }
      else {
        assert PlaceInv(s, a.c);
        forall d | 0 <= d < |s.at| ensures PlaceInv(Next(s, a), d) { NextKeepsPlace(s, a, d); }
      }
    }
  }

  lemma {:induction false} RunKeepsInv(n: nat, actions: seq<Action>)
    ensures Inv(Run(Initial(n), actions))
  {
    if |actions| > 0 {
      RunKeepsInv(n, actions[..|actions| - 1]);
      NextKeepsInv(Run(Initial(n), actions[..|actions| - 1]), actions[|actions| - 1]);
    }
  }

  // ---------- What every interleaving guarantees ----------

  /** No notification is missed. An awaiter that has released the async lock is on the list, or holds
      the mutex that every notification needs until it is on the list; so the next `notify_all` that
      runs takes every one of them, and nobody else. */
  lemma {:induction false} NoMissedNotification(n: nat, actions: seq<Action>, c: nat, notifier: nat)
    requires var s := Run(Initial(n), actions); c < |s.at| && notifier < |s.at|
    ensures var s := Run(Initial(n), actions);
            && (s.at[c].Released? ==>
                  s.mutex == Some(c) && Next(s, NotifyAll(notifier)) == s && Next(s, NotifyOne(notifier)) == s)
            && (s.mutex == None ==>
                  && (Waiting(s.at[c]) <==> c in s.queue)
                  && (Next(s, NotifyAll(notifier)).at[c] == if Waiting(s.at[c]) then Popped(s.at[c].loop) else s.at[c]))
  {
    RunKeepsInv(n, actions);
    var s := Run(Initial(n), actions);
    assert PlaceInv(s, c);
    assert s.queue[..|s.queue|] == s.queue;
  }

  /** Awaiters are notified in the order in which they were queued, each at most once per await. */
  lemma {:induction false} NotifiedInArrivalOrder(n: nat, actions: seq<Action>)
    ensures var s := Run(Initial(n), actions);
            && s.arrived == s.notified + s.queue
            && Distinct(s.queue)
  {
    RunKeepsInv(n, actions);
  }

  /** Once a `notify_all` has run after the condition was last made true, no predicate await is left
      waiting for a condition that holds. */
  lemma {:induction false} NoLostWakeUp(n: nat, actions: seq<Action>, c: nat)
    requires c < |Run(Initial(n), actions).at|
    ensures var s := Run(Initial(n), actions);
            var p := s.at[c];
            s.condition && !s.owed ==> !((Waiting(p) || p.Entering? || p.Guarded?) && p.loop)
  {
    RunKeepsInv(n, actions);
    assert PlaceInv(Run(Initial(n), actions), c);
  }

  lemma {:induction false} OwedStep(s: State, a: Action)
    ensures Next(s, a).owed ==> s.owed || (a.Change? && a.value)
    ensures a.NotifyAll? && a.c < |s.at| && s.mutex == None ==> !Next(s, a).owed
  {
  }

  lemma {:induction false} NotOwedAfter(n: nat, actions: seq<Action>, i: nat)
    requires i < |actions| && actions[i].NotifyAll?
    requires var s := Run(Initial(n), actions[..i]); actions[i].c < |s.at| && s.mutex == None
    requires forall j :: i < j < |actions| ==> !(actions[j].Change? && actions[j].value)
    ensures !Run(Initial(n), actions).owed
  {
    var front := actions[..|actions| - 1];
    OwedStep(Run(Initial(n), front), actions[|actions| - 1]);
    if i < |actions| - 1 {
      assert front[..i] == actions[..i];
      NotOwedAfter(n, front, i);
    }
  }

  /** In terms of the run: after a `notify_all` that is not followed by a change to true, no predicate await is left
      waiting for a condition that holds. */
  lemma {:induction false} NotifyAllWakesThemAll(n: nat, actions: seq<Action>, i: nat, c: nat)
    requires i < |actions| && actions[i].NotifyAll? && c < |Run(Initial(n), actions).at|
    requires var s := Run(Initial(n), actions[..i]); actions[i].c < |s.at| && s.mutex == None
    requires forall j :: i < j < |actions| ==> !(actions[j].Change? && actions[j].value)
    ensures var s := Run(Initial(n), actions);
            s.condition ==> !(Waiting(s.at[c]) && s.at[c].loop)
  {
    NotOwedAfter(n, actions, i);
    NoLostWakeUp(n, actions, c);
  }

  // ---------- What each operation does ----------

  predicate Unowned(s: State) {
    forall d :: 0 <= d < |s.at| ==> !Owns(s.at[d])
  }

  /** A coroutine gets the async lock if and only if nobody owns it, and gives it back. Its changes of the condition
      take effect. */
  lemma {:induction false} OwnerOutcome(n: nat, actions: seq<Action>, c: nat, value: bool)
    requires c < |Run(Initial(n), actions).at|
    ensures var s := Run(Initial(n), actions);
            var t := Next(s, Lock(c));
            && (s.at[c] == Outside || s.at[c].Relocking? ==>
                  if Unowned(s) then t.at[c] == Inside && t.owner == Some(c) else t == s)
            && (s.at[c] == Inside || s.at[c] == Returned ==>
                  && Next(s, Unlock(c)).at[c] == Outside && Next(s, Unlock(c)).owner == None
                  && Next(s, Change(c, value)).condition == value && Next(s, Change(c, value)).at[c] == Inside)
  {
    RunKeepsInv(n, actions);
    var s := Run(Initial(n), actions);
    if s.owner.Some? {
      assert PlaceInv(s, s.owner.value);
    } else {
      forall d | 0 <= d < |s.at| ensures !Owns(s.at[d]) { assert PlaceInv(s, d); }
    }
  }

  lemma {:induction false} ConditionStep(s: State, a: Action)
    ensures Next(s, a).condition != s.condition ==> a.Change? && a.value == Next(s, a).condition && a.c < |s.at|
    ensures Next(s, a).condition != s.condition ==> s.at[a.c] == Inside || s.at[a.c] == Returned
  {
  }

  /** The predicate overload returns if the condition holds and awaits otherwise; the plain one awaits. When nobody else
      moves, either is queued, last, in three steps, and the lock and the mutex are free. */
  lemma {:induction false} AwaitOutcome(n: nat, actions: seq<Action>, c: nat, plain: bool)
    requires var s := Run(Initial(n), actions); c < |s.at| && s.at[c] == Inside && s.mutex == None
    ensures var s := Run(Initial(n), actions);
            var t := Next(s, if plain then Await(c) else Test(c));
            var u := Next(Next(Next(t, TakeMutex(c)), ReleaseLock(c)), Enqueue(c));
            if !plain && s.condition then t.at[c] == Returned && t.owner == Some(c)
            else u.at[c] == Queued(!plain) && u.queue == s.queue + [c] && u.owner == None && u.mutex == None
  {
    RunKeepsInv(n, actions);
    assert PlaceInv(Run(Initial(n), actions), c);
  }

  /** `notify_one` takes exactly the first awaiter. A notified awaiter goes on if its executor is alive, and is out if
      it is not, or if it fails while it waits for the lock. */
  lemma {:induction false} NotifiedOutcome(n: nat, actions: seq<Action>, c: nat, notifier: nat)
    requires var s := Run(Initial(n), actions); c < |s.at| && notifier < |s.at|
    ensures var s := Run(Initial(n), actions);
            && (s.mutex == None && s.queue != [] ==>
                  && Next(s, NotifyOne(notifier)).queue == s.queue[1..]
                  && (Next(s, NotifyOne(notifier)).at[c] ==
                      if c == s.queue[0] && s.at[c].Queued? then Popped(s.at[c].loop) else s.at[c]))
            && (s.at[c].Popped? ==>
                  && Next(s, ResumeOn(c, true)).at[c] == Relocking(s.at[c].loop)
                  && Next(s, ResumeOn(c, false)).at[c] == Outside)
            && (s.at[c].Relocking? ==>
                  Next(s, FailToRelock(c)).at[c] == Outside && Next(s, FailToRelock(c)).owner == s.owner)
  {
    RunKeepsInv(n, actions);
    var s := Run(Initial(n), actions);
    if s.queue != [] { assert s.queue[..1] == [s.queue[0]]; }
  }

  // ---------- Nobody is stuck ----------

  function Weight(p: Place): nat {
    match p
    case Outside => 0
    case Inside => 1
    case Returned => 1
    case Relocking(_) => 2
    case Popped(_) => 3
    case Queued(_) => 4
    case Released(_) => 5
    case Guarded(_) => 6
    case Entering(_) => 7
  }

  function Weights(s: State): seq<nat> {
    seq(|s.at|, c requires 0 <= c < |s.at| => Weight(s.at[c]))
  }

  function Effort(s: State): nat {
    Total(Weights(s))
  }

  lemma {:induction false} EffortDrops(s: State, t: State, c: nat)
    requires c < |s.at| && |t.at| == |s.at| && Weight(t.at[c]) < Weight(s.at[c])
    requires forall d :: 0 <= d < |s.at| && d != c ==> t.at[d] == s.at[d]
    ensures Effort(t) < Effort(s)
  {
    TotalUpdate(Weights(s), c, Weight(t.at[c]));
    assert Weights(t) == Weights(s)[c := Weight(t.at[c])];
  }

  // A step that brings coroutine c nearer to being outside.
  function Helpful(s: State, c: nat): Action
    requires c < |s.at|
  {
    match s.at[c]
    case Relocking(_) => Lock(c)
    case Popped(_) => ResumeOn(c, true)
    case Queued(_) => NotifyOne(c)
    case Released(_) => Enqueue(c)
    case Guarded(_) => ReleaseLock(c)
    case Entering(_) => TakeMutex(c)
    case _ => Unlock(c)
  }

  // The coroutine that can move: whoever holds the mutex, the first awaiter, the owner of the lock, anybody notified.
  predicate CanMove(s: State, c: nat)
    requires c < |s.at|
  {
    || HoldsMutex(s.at[c])
    || (s.mutex == None && s.queue != [] && s.queue[0] == c)
    || (s.mutex == None && s.queue == [] && Owns(s.at[c]))
    || (s.mutex == None && s.queue == [] && s.owner == None && s.at[c] != Outside)
  }

  lemma {:induction false} HelpfulStep(s: State, c: nat)
    requires Inv(s) && c < |s.at| && CanMove(s, c)
    ensures Effort(Next(s, Helpful(s, c))) < Effort(s)
  {
    assert PlaceInv(s, c);
    var t := Next(s, Helpful(s, c));
    if s.at[c].Queued? {
      assert s.queue[..1] == [c];
    }
    EffortDrops(s, t, c);
  }

  lemma {:induction false} SomeoneCanMove(s: State, d: nat) returns (c: nat)
    requires Inv(s) && d < |s.at| && s.at[d] != Outside
    ensures c < |s.at| && CanMove(s, c)
  {
    assert PlaceInv(s, d);
    if s.mutex.Some? {
      c := s.mutex.value;
      assert PlaceInv(s, c);
    } else if s.queue != [] {
      c := s.queue[0];
    } else if s.owner.Some? {
      c := s.owner.value;
      assert PlaceInv(s, c);
    } else {
      c := d;
    }
  }

  lemma {:induction false} CanLeave(s: State) returns (more: seq<Action>)
    requires Inv(s)
    ensures forall c :: 0 <= c < |Run(s, more).at| ==> Run(s, more).at[c] == Outside
    decreases Effort(s)
  {
    more := [];
    if d :| 0 <= d < |s.at| && s.at[d] != Outside {
      var c := SomeoneCanMove(s, d);
      var a := Helpful(s, c);
      HelpfulStep(s, c);
      NextKeepsInv(s, a);
      var rest := CanLeave(Next(s, a));
      RunCons(s, a, rest);
      more := [a] + rest;
    }
  }

  lemma {:induction false} RunLast(s: State, front: seq<Action>, a: Action)
    ensures Run(s, front + [a]) == Next(Run(s, front), a)
  {
    assert (front + [a])[..|front|] == front;
  }

  lemma {:induction false} RunCons(s: State, a: Action, rest: seq<Action>)
    ensures Run(s, [a] + rest) == Run(Next(s, a), rest)
  {
    if rest == [] {
      assert [a] + rest == [] + [a];
      RunLast(s, [], a);
    } else {
      var front, last := rest[..|rest| - 1], rest[|rest| - 1];
      assert rest == front + [last];
      assert [a] + rest == ([a] + front) + [last];
      RunCons(s, a, front);
      RunLast(s, [a] + front, last);
      RunLast(Next(s, a), front, last);
    }
  }

  /** From every reachable state, some schedule lets every coroutine get through and out. */
  lemma {:induction false} NobodyIsStuck(n: nat, actions: seq<Action>) returns (more: seq<Action>)
    ensures var t := Run(Run(Initial(n), actions), more); forall c :: 0 <= c < |t.at| ==> t.at[c] == Outside
  {
    RunKeepsInv(n, actions);
    more := CanLeave(Run(Initial(n), actions));
  }

  /** A predicate await that returned normally owns the lock and its condition holds. */
  lemma {:induction false} ReturnMeansLockedAndTrue(n: nat, actions: seq<Action>, c: nat)
    requires c < |Run(Initial(n), actions).at|
    ensures var s := Run(Initial(n), actions);
            && (s.at[c] == Returned ==> s.owner == Some(c) && s.condition)
            && (forall d :: 0 <= d < |s.at| && Owns(s.at[c]) && Owns(s.at[d]) ==> c == d)
  {
    RunKeepsInv(n, actions);
    var s := Run(Initial(n), actions);
    assert PlaceInv(s, c);
    forall d | 0 <= d < |s.at| && Owns(s.at[c]) && Owns(s.at[d]) ensures c == d { assert PlaceInv(s, d); }
  }
}

/**
  `cv_awaiter::await_suspend` unlocks the async lock while it holds the condition variable's mutex. A lock waiter whose
  resume executor is shut down fails inside that unlock, and the code that awaited it goes on there, on this thread.
 */
module ConditionVariableRelease {
  import opened AsyncLockHandOff
  import opened Collections

  // How many of the waiters use the condition variable when they have failed.
  function Users(ids: seq<nat>, uses: nat -> bool): nat {
    if |ids| == 0 then 0 else Users(ids[..|ids| - 1], uses) + if uses(ids[|ids| - 1]) then 1 else 0
  }

  lemma {:induction false} NoUsersIff(ids: seq<nat>, uses: nat -> bool)
    ensures Users(ids, uses) == 0 <==> forall i :: 0 <= i < |ids| ==> !uses(ids[i])
  {
    if |ids| > 0 {
      var front := ids[..|ids| - 1];
      NoUsersIff(front, uses);
      assert forall i :: 0 <= i < |front| ==> front[i] == ids[i];
      if uses(ids[|ids| - 1]) { assert Users(ids, uses) > 0; }
    }
  }

  lemma {:induction false} NoUsersUnwound(waiters: seq<Waiter>, uses: nat -> bool)
    ensures Users(Unwound(waiters), uses) == 0 <==> forall i :: 0 <= i < |waiters| ==> !uses(waiters[i].id)
  {
    var ids := Unwound(waiters);
    NoUsersIff(ids, uses);
    forall i | 0 <= i < |waiters| ensures |ids| == |waiters| && ids[|waiters| - 1 - i] == waiters[i].id {
      UnwoundAt(waiters, i);
    }
    if |waiters| > 0 {
      forall i | 0 <= i < |ids| ensures ids[i] == waiters[|waiters| - 1 - i].id {
        UnwoundAt(waiters, |waiters| - 1 - i);
      }
    }
  }

  class Awaiting {
    const lock: AsyncLock
    var mutex: bool               // this thread holds m_lock
    var queue: seq<nat>           // m_awaiters
    var relocks: nat              // how often this thread asked for m_lock while it held it

    constructor (lock: AsyncLock)
      ensures this.lock == lock && !mutex && queue == [] && relocks == 0
    {
      this.lock := lock;
      mutex, queue, relocks := false, [], 0;
    }

    // notify_one, notify_all or await, from the code behind a failed lock.
    method Use()
      modifies this`relocks
      ensures relocks == if mutex then old(relocks) + 1 else old(relocks)
    {
      if mutex {
        relocks := relocks + 1;
      }
    }

    // The code behind each failed waiter goes on.
    method GoOn(failed: seq<nat>, uses: nat -> bool)
      modifies this`relocks
      ensures relocks == if mutex then old(relocks) + Users(failed, uses) else old(relocks)
    {
      for i := 0 to |failed|
        invariant relocks == if mutex then old(relocks) + Users(failed[..i], uses) else old(relocks)
      {
        assert failed[..i + 1][..i] == failed[..i];
        if uses(failed[i]) {
          Use();
        }
      }
      assert failed[..|failed|] == failed;
    }

    /** The thread asks for the mutex that it holds if and only if a waiter with a dead executor, ahead of the first
        living one, uses the condition variable when it fails. Otherwise the awaiter is queued under the mutex. */
    method AwaitSuspend(id: nat, uses: nat -> bool)
      requires lock.Valid() && lock.locked && !mutex
      modifies this`mutex, this`queue, this`relocks, lock
      ensures lock.Valid() && lock.PassedTo(old(lock.awaiters), old(lock.broken))
      ensures !mutex && queue == old(queue) + [id]
      ensures var waiters := old(lock.awaiters);
              relocks == old(relocks) <==> forall i :: 0 <= i < DeadPrefix(waiters) ==> !uses(waiters[i].id)
    {
      mutex := true;
      var first := |lock.broken|;
      var _ := lock.Unlock();
      var failed := lock.broken[first..];
      FailedUsers(old(lock.awaiters), failed, lock.locked, lock.owner, lock.awaiters, uses);
      GoOn(failed, uses);
      queue := queue + [id];
      mutex := false;
    }
  }

  lemma {:induction false} FailedUsers(waiters: seq<Waiter>, failed: seq<nat>, locked: bool, owner: Option<nat>,
                                       awaiters: seq<Waiter>, uses: nat -> bool)
    requires Passed(waiters, failed, locked, owner, awaiters)
    ensures Users(failed, uses) == 0 <==> forall i :: 0 <= i < DeadPrefix(waiters) ==> !uses(waiters[i].id)
  {
    var dead := waiters[..DeadPrefix(waiters)];
    NoUsersUnwound(dead, uses);
    assert forall i :: 0 <= i < |dead| ==> dead[i] == waiters[i];
  }
}
