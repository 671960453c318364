/**
  How one worker of a pool sleeps and is woken: `wait_for_task`, `ensure_worker_active` and the worker's part of
  `shutdown`. Each region guarded by `m_lock`, each semaphore operation and each access to the atomic
  `m_task_found_or_abort` is one action. Releasing a semaphore that holds its permit leaves one permit.
 */
module PoolWorker {

  datatype Place =
    | NoThread
    | Top                         // about to lock m_lock in drain_queue
    | Sleeping                    // in try_acquire_until
    | Acquired                    // has a permit, before the load of m_task_found_or_abort
    | Relocking                   // the flag was set, before locking m_lock
    | Expired                     // the deadline passed, before locking m_lock
    | Busy                        // draining its private queue

  // `closing`: shutdown of the pool has begun. The stages are those of the worker's own shutdown.
  datatype Stage = NotCalled | AtomicSet | AbortSet | FoundSet | ReleaseDone | Joined

  datatype State = State(
    public: nat,                  // tasks in m_public_queue
    taken: nat,                   // tasks moved to the private queue so far
    accepted: nat,
    idle: bool,                   // m_idle
    abort: bool,                  // m_abort
    found: bool,                  // m_task_found_or_abort
    permit: bool,                 // m_semaphore
    place: Place,
    live: nat,                    // threads in work_loop
    releasing: nat,               // enqueuers that left their region and are about to release
    closing: bool,
    stage: Stage)

  datatype Action =
    | Enqueue(count: nat) | Release
    | Work                        // the next step of the worker's thread
    | TimeOut                     // the idle deadline passes
    | Quit                        // draining ends early: the abort flag, or a donation to a worker that is shut down
    | Close | Stop

  function Initial(): State {
    State(0, 0, 0, true, false, false, false, NoThread, 0, 0, false, NotCalled)
  }

  function Next(s: State, a: Action): State {
    match a
    case Enqueue(count) =>
      if s.abort then s                         // throws runtime_shutdown
      else
        var t := s.(found := true, public := s.public + count, accepted := s.accepted + count);
        if s.idle then t.(place := Top, live := s.live + 1, idle := false)
        else if s.public == 0 then t.(releasing := s.releasing + 1)
        else t
    case Release => if s.releasing > 0 then s.(releasing := s.releasing - 1, permit := true) else s
    case Work => WorkNext(s)
    case TimeOut => if s.place == Sleeping then s.(place := Expired) else s
    case Quit => if s.place == Busy && s.closing then Retire(s) else s
    case Close => s.(closing := true)
    case Stop => if s.closing then StopNext(s) else s
  }

  function Retire(s: State): State {
    s.(idle := true, place := NoThread, live := if s.live > 0 then s.live - 1 else 0)
  }

  function WorkNext(s: State): State {
    match s.place
    case Top => if s.public > 0 || s.abort then Drain(s) else s.(place := Sleeping)
    case Sleeping => if s.permit then s.(permit := false, place := Acquired) else s
    case Acquired => s.(place := if s.found then Relocking else Sleeping)
    case Relocking =>
      if s.public == 0 && !s.abort then s.(place := Sleeping) else if s.abort then Retire(s) else Drain(s)
    case Expired => Retire(s)                   // the queue is not looked at again
    case Busy => s.(place := Top)
    case NoThread => s
  }

  // The rest of drain_queue's region.
  function Drain(s: State): State {
    if s.abort then Retire(s.(found := false))
    else s.(found := false, taken := s.taken + s.public, public := 0, place := Busy)
  }

  function StopNext(s: State): State {
    match s.stage
    case NotCalled => s.(stage := AtomicSet)
    case AtomicSet => s.(abort := true, stage := AbortSet)
    case AbortSet => s.(found := true, stage := FoundSet)
    case FoundSet => s.(permit := true, stage := ReleaseDone)
    case ReleaseDone => if s.place == NoThread then s.(stage := Joined) else s
    case Joined => s
  }

  function Run(s: State, actions: seq<Action>): State {
    if |actions| == 0 then s
    else Next(Run(s, actions[..|actions| - 1]), actions[|actions| - 1])
  }

  // ---------- Invariant ----------

  predicate ThreadInv(s: State) {
    && (s.idle <==> s.place == NoThread)
    && s.live == (if s.place == NoThread then 0 else 1)
    && s.accepted == s.taken + s.public
  }

  predicate StopInv(s: State) {
    && (s.stage != NotCalled ==> s.closing)
    && (s.abort <==> s.stage != NotCalled && s.stage != AtomicSet)
    && (s.stage == Joined ==> s.place == NoThread)
  }

  // The flag is up whenever there is something to find.
  predicate FlagInv(s: State) {
    && (s.public > 0 && !s.abort ==> s.found)
    && ((s.stage == FoundSet || s.stage == ReleaseDone) && s.place != NoThread ==> s.found)
  }

  predicate WakeInv(s: State) {
    && (s.place == Sleeping && s.public > 0 ==> s.permit || s.releasing > 0 || s.abort)
    && (s.place == Sleeping && s.abort ==> s.permit || s.releasing > 0 || s.stage == AbortSet || s.stage == FoundSet)
  }

  predicate Inv(s: State) {
    ThreadInv(s) && StopInv(s) && FlagInv(s) && WakeInv(s)
  }

  lemma {:induction false} WorkKeepsInv(s: State)
    requires Inv(s)
    ensures Inv(WorkNext(s))
  { }

  lemma {:induction false} StopKeepsInv(s: State)
    requires Inv(s) && s.closing
    ensures Inv(StopNext(s))
  { }

  lemma {:induction false} NextKeepsInv(s: State, a: Action)
    requires Inv(s)
    ensures Inv(Next(s, a))
  {
    match a
    case Work => WorkKeepsInv(s);
    case Stop => if s.closing { StopKeepsInv(s); }
    case _ =>
  }

  lemma {:induction false} RunKeepsInv(actions: seq<Action>)
    ensures Inv(Run(Initial(), actions))
  {
    if |actions| > 0 {
      RunKeepsInv(actions[..|actions| - 1]);
      NextKeepsInv(Run(Initial(), actions[..|actions| - 1]), actions[|actions| - 1]);
    }
  }

  // ---------- What every interleaving guarantees ----------

  /** A worker has at most one thread, and one exactly when it is not marked idle: no enqueue starts a second. */
  lemma {:induction false} AtMostOneThread(actions: seq<Action>)
    ensures var s := Run(Initial(), actions); s.live <= 1 && (s.idle <==> s.live == 0)
  {
    RunKeepsInv(actions);
  }

  /** No wake-up is lost: a sleeping worker with tasks, or with a shutdown, has a permit waiting or coming, and a
      worker that got a permit finds the flag up. */
  lemma {:induction false} SleepingWorkerIsWoken(actions: seq<Action>)
    ensures var s := Run(Initial(), actions);
            && (s.place == Sleeping && (s.public > 0 || s.abort) ==>
                  s.permit || s.releasing > 0 || s.stage == AbortSet || s.stage == FoundSet)
            && (s.place == Acquired && s.public > 0 && !s.abort ==>
                  Next(Next(s, Work), Work).place == Busy && Next(Next(s, Work), Work).public == 0)
  {
    RunKeepsInv(actions);
  }

  /** Until its shutdown a worker that finds no task sleeps. It wakes only with a permit, which it uses up, and goes
      back to sleep if the flag is down or the queue is empty. With tasks it takes them all and lowers the flag. */
  lemma {:induction false} WorkOutcome(actions: seq<Action>)
    requires !Run(Initial(), actions).abort
    ensures var s := Run(Initial(), actions);
            var t := Next(s, Work);
            && (s.place == Top || s.place == Relocking ==>
                  if s.public == 0 then t.place == Sleeping && t.taken == s.taken
                  else t.place == Busy && t.public == 0 && t.taken == s.taken + s.public && !t.found)
            && (s.place == Sleeping ==> if s.permit then t.place == Acquired && !t.permit else t == s)
            && (s.place == Acquired ==> t.place == (if s.found then Relocking else Sleeping) && t.public == s.public)
            && (s.place == Busy ==> t.place == Top)
            && (s.place == Expired ==> t.place == NoThread && t.public == s.public && t.idle)
  {
    RunKeepsInv(actions);
  }

  // Tasks are queued and no thread is there to run them.
  predicate Stranded(s: State) {
    s.public > 0 && s.place == NoThread && !s.closing
  }

  /** Before shutdown, a task is stranded by exactly one step: a worker whose idle deadline has passed retires
      without looking at its queue. It stays stranded until the next enqueue to that worker. */
  lemma {:induction false} StrandedOnlyByTimeOut(actions: seq<Action>, a: Action)
    requires !Next(Run(Initial(), actions), a).closing
    ensures var s := Run(Initial(), actions);
            Stranded(Next(s, a)) <==>
              || (Stranded(s) && !a.Enqueue?)
              || (a == Work && s.place == Expired && s.public > 0)
  {
    RunKeepsInv(actions);
    StrandedStep(Run(Initial(), actions), a);
  }

  lemma {:induction false} StrandedStep(s: State, a: Action)
    requires Inv(s) && !Next(s, a).closing
    ensures Stranded(Next(s, a)) <==>
              || (Stranded(s) && !a.Enqueue?)
              || (a == Work && s.place == Expired && s.public > 0)
  { }

  /** So without idle time-outs no task is ever stranded. */
  lemma {:induction false} NeverStrandedWithoutTimeOut(actions: seq<Action>)
    requires forall i :: 0 <= i < |actions| ==> actions[i] != TimeOut
    ensures var s := Run(Initial(), actions); !Stranded(s) && s.place != Expired
  {
    if |actions| > 0 {
      var n := |actions| - 1;
      NeverStrandedWithoutTimeOut(actions[..n]);
      RunKeepsInv(actions[..n]);
      NotStrandedStep(Run(Initial(), actions[..n]), actions[n]);
    }
  }

  lemma {:induction false} NotStrandedStep(s: State, a: Action)
    requires Inv(s) && !Stranded(s) && s.place != Expired && a != TimeOut
    ensures !Stranded(Next(s, a)) && Next(s, a).place != Expired
  { }

  /** The property fails with time-outs: an enqueue may come between the deadline and the worker's last region. */
  lemma {:induction false} TimeOutStrandsTasks(count: nat)
    requires count > 0
    ensures Stranded(Run(Initial(), [Enqueue(1), Work, Work, Work, TimeOut, Enqueue(count), Release, Work]))
  {
    var a1 := [] + [Enqueue(1)];
    var a2 := a1 + [Work];
    var a3 := a2 + [Work];
    var a4 := a3 + [Work];
    var a5 := a4 + [TimeOut];
    var a6 := a5 + [Enqueue(count)];
    var a7 := a6 + [Release];
    RunLast(Initial(), [], Enqueue(1));
    RunLast(Initial(), a1, Work);
    RunLast(Initial(), a2, Work);
    RunLast(Initial(), a3, Work);
    assert Run(Initial(), a4) == State(0, 1, 1, false, false, false, false, Sleeping, 1, 0, false, NotCalled);
    RunLast(Initial(), a4, TimeOut);
    RunLast(Initial(), a5, Enqueue(count));
    RunLast(Initial(), a6, Release);
    RunLast(Initial(), a7, Work);
    assert a7 + [Work] == [Enqueue(1), Work, Work, Work, TimeOut, Enqueue(count), Release, Work];
  }

  /** The next enqueue rescues them: it starts a thread, whose first region takes every queued task. */
  lemma {:induction false} NextEnqueueRescues(actions: seq<Action>, count: nat)
    requires Stranded(Run(Initial(), actions))
    ensures var s := Run(Initial(), actions);
            var t := Next(Next(s, Enqueue(count)), Work);
            t.place == Busy && t.public == 0 && t.taken == s.accepted + count
  {
    RunKeepsInv(actions);
  }

  // ---------- Tasks are always taken, and shutdown can always end ----------

  lemma {:induction false} RunLast(s: State, front: seq<Action>, a: Action)
    ensures Run(s, front + [a]) == Next(Run(s, front), a)
  {
    assert (front + [a])[..|front|] == front;
  }

  lemma {:induction false} RunCons(s: State, a: Action, rest: seq<Action>)
    ensures Run(s, [a] + rest) == Run(Next(s, a), rest)
  {
    if rest == [] {
      assert [a] + rest == [] + [a];
      RunLast(s, [], a);
    } else {
      var front, last := rest[..|rest| - 1], rest[|rest| - 1];
      assert rest == front + [last];
      assert [a] + rest == ([a] + front) + [last];
      RunCons(s, a, front);
      RunLast(s, [a] + front, last);
      RunLast(Next(s, a), front, last);
    }
  }

  function Effort(s: State): nat {
    s.releasing + match s.place
                  case Busy => 0
                  case NoThread => 0
                  case Top => 1
                  case Expired => 1
                  case Relocking => 2
                  case Acquired => 3
                  case Sleeping => 4
  }

  lemma {:induction false} TakeProgress(s: State) returns (a: Action)
    requires Inv(s) && !s.abort && s.public > 0 && s.place != Busy && s.place != Expired && s.place != NoThread
    ensures (a == Work || a == Release) && Effort(Next(s, a)) < Effort(s) && !Next(s, a).abort
    ensures Next(s, a).place != Expired && Next(s, a).place != NoThread && Next(s, a).accepted == s.accepted
    ensures Next(s, a).public == 0 || Next(s, a).place != Busy
  {
    a := if s.place == Sleeping && !s.permit then Release else Work;
  }

  lemma {:induction false} CanTake(s: State) returns (more: seq<Action>)
    requires Inv(s) && !s.abort && s.place != Expired && s.place != NoThread
    ensures Run(s, more).public == 0 && Run(s, more).accepted == s.accepted && Inv(Run(s, more))
    decreases s.public > 0, s.place == Busy, Effort(s)
  {
    if s.public == 0 {
      more := [];
    } else {
      var a := Work;
      if s.place != Busy { a := TakeProgress(s); }
      NextKeepsInv(s, a);
      var rest := CanTake(Next(s, a));
      RunCons(s, a, rest);
      more := [a] + rest;
    }
  }

  /** A worker that has a thread, and whose idle deadline has not passed, can take every task that it accepted. */
  lemma {:induction false} EveryTaskCanBeTaken(actions: seq<Action>) returns (more: seq<Action>)
    requires var s := Run(Initial(), actions); !s.abort && s.place != Expired && s.place != NoThread
    ensures var s := Run(Initial(), actions);
            var t := Run(s, more);
            t.public == 0 && t.taken == t.accepted == s.accepted
  {
    RunKeepsInv(actions);
    more := CanTake(Run(Initial(), actions));
  }

  function StopWeight(s: State): nat {
    match s.stage
    case NotCalled => if s.closing then 5 else 6
    case AtomicSet => 4
    case AbortSet => 3
    case FoundSet => 2
    case ReleaseDone => 1
    case Joined => 0
  }

  function ExitWeight(s: State): nat {
    s.releasing + match s.place
                  case NoThread => 0
                  case Top => 1
                  case Expired => 1
                  case Relocking => 1
                  case Acquired => 2
                  case Sleeping => 3
                  case Busy => 2
  }

  lemma {:induction false} StopProgress(s: State) returns (a: Action)
    requires Inv(s) && s.stage != Joined
    ensures !a.Enqueue? && StopWeight(Next(s, a)) + ExitWeight(Next(s, a)) < StopWeight(s) + ExitWeight(s)
  {
    if !s.closing {
      a := Close;
    } else if s.stage != ReleaseDone || s.place == NoThread {
      a := Stop;
    } else {
      a := if s.place == Sleeping && !s.permit then Release else Work;
    }
  }

  lemma {:induction false} CanStop(s: State) returns (more: seq<Action>)
    requires Inv(s)
    ensures Run(s, more).stage == Joined && Inv(Run(s, more))
    decreases StopWeight(s) + ExitWeight(s)
  {
    if s.stage == Joined {
      more := [];
    } else {
      var a := StopProgress(s);
      NextKeepsInv(s, a);
      var rest := CanStop(Next(s, a));
      RunCons(s, a, rest);
      more := [a] + rest;
    }
  }

  /** From every reachable state the worker's shutdown can end, with its thread joined. */
  lemma {:induction false} ShutdownIsAlwaysPossible(actions: seq<Action>) returns (more: seq<Action>)
    ensures var t := Run(Run(Initial(), actions), more); t.stage == Joined && t.live == 0
  {
    RunKeepsInv(actions);
    more := CanStop(Run(Initial(), actions));
  }

  /** An enqueue is accepted until the worker's shutdown sets its flag, and leaves the worker with a thread; a worker
      that stops draining early gives up its thread. */
  lemma {:induction false} EnqueueOutcome(actions: seq<Action>, count: nat)
    ensures var s := Run(Initial(), actions);
            var t := Next(s, Enqueue(count));
            && (s.stage == NotCalled || s.stage == AtomicSet ==>
                  && t.public == s.public + count && t.accepted == s.accepted + count && t.live == 1 && !t.idle
                  && t.found && (t.releasing == if !s.idle && s.public == 0 then s.releasing + 1 else s.releasing))
            && (s.stage != NotCalled && s.stage != AtomicSet ==> t == s)
            && (if s.closing && s.place == Busy then Next(s, Quit).live == 0 && Next(s, Quit).idle
                else Next(s, Quit) == s)
  {
    RunKeepsInv(actions);
    NextKeepsInv(Run(Initial(), actions), Enqueue(count));
  }

  /** Once the worker's shutdown has released the semaphore, its thread is gone or can still go on; when it has
      joined, no thread is left and none will come. */
  lemma {:induction false} ShutdownReachesTheWorker(actions: seq<Action>)
    ensures var s := Run(Initial(), actions);
            && (s.stage == ReleaseDone && s.place == Sleeping ==> s.permit || s.releasing > 0)
            && (s.stage == ReleaseDone && s.place == Acquired ==> Next(Next(s, Work), Work).place == NoThread)
            && (s.stage == ReleaseDone && (s.place == Top || s.place == Expired || s.place == Relocking) ==>
                  Next(s, Work).place == NoThread)
            && (s.stage == Joined ==> s.live == 0 && forall c :: Next(s, Enqueue(c)) == s)
  {
    RunKeepsInv(actions);
  }
}
