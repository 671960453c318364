/**
  `worker_thread_executor`: one thread drains a private queue that it refills from a public one, and
  sleeps on a binary semaphore when both are empty. Each region guarded by `m_lock`, each semaphore
  operation and each access to the atomic abort flag is one action. Releasing a semaphore that
  already holds its permit leaves one permit.
 */
module WorkerThread {

  datatype Task = Task(id: nat, local: bool)

  datatype Worker =
    | NotStarted
    | Top                         // about to lock m_lock in drain_queue
    | Blocked                     // in m_semaphore.acquire
    | Woken                       // acquired, about to lock m_lock again
    | Draining                    // top of drain_queue_impl's loop
    | Running(task: Task)
    | Exited

  datatype Shutdown =
    | NotCalled | Called | AbortSet | PrivateSet | ReleaseDone | Joined | Done

  datatype State = State(
    public: seq<Task>,
    private: seq<Task>,
    abort: bool,                  // m_abort
    privateAbort: bool,           // m_private_atomic_abort
    permit: bool,                 // m_semaphore
    worker: Worker,
    releasing: nat,               // enqueuers that left the region and are about to release
    shutdown: Shutdown,
    accepted: seq<Task>,          // tasks in the order in which enqueue accepted them
    ran: seq<Task>,               // tasks in the order in which they were executed
    destroyed: seq<Task>)         // tasks destroyed without being executed

  datatype Action = EnqueueForeign(count: nat) | Release | EnqueueLocal(count: nat) | Work | Stop

  function Initial(): State {
    State([], [], false, false, false, NotStarted, 0, NotCalled, [], [], [])
  }

  function Run(s: State, actions: seq<Action>): State {
    if |actions| == 0 then s
    else Next(Run(s, actions[..|actions| - 1]), actions[|actions| - 1])
  }

  // `count` new tasks, numbered from `first` on.
  function NewTasks(first: nat, count: nat, local: bool): (tasks: seq<Task>)
    ensures |tasks| == count
  {
    seq(count, i requires 0 <= i < count => Task(first + i, local))
  }

  function Next(s: State, a: Action): State {
    match a
    case EnqueueForeign(count) =>
      if s.abort then s else                    // throws runtime_shutdown
      var tasks := NewTasks(|s.accepted|, count, false);
      var t := s.(public := s.public + tasks, accepted := s.accepted + tasks);
      if s.worker == NotStarted then t.(worker := Top)
      else if s.public == [] then t.(releasing := s.releasing + 1)
      else t
    case Release => if s.releasing > 0 then s.(releasing := s.releasing - 1, permit := true) else s
    case EnqueueLocal(count) =>
      if !s.worker.Running? || s.privateAbort then s else
      var tasks := NewTasks(|s.accepted|, count, true);
      s.(private := s.private + tasks, accepted := s.accepted + tasks)
    case Work => WorkNext(s)
    case Stop => StopNext(s)
  }

  function WorkNext(s: State): State {
    match s.worker
    case Top => CheckQueue(s)
    case Blocked => if s.permit then s.(permit := false, worker := Woken) else s
    case Woken => CheckQueue(s)
    case Draining =>
      if s.private == [] then s.(worker := Top)
      else if s.privateAbort then
        s.(private := s.private[1..], destroyed := s.destroyed + [s.private[0]], worker := Exited)
      else s.(private := s.private[1..], ran := s.ran + [s.private[0]], worker := Running(s.private[0]))
    case Running(_) => s.(worker := Draining)
    case _ => s
  }

  // wait_for_task's test and, when it succeeds, the rest of drain_queue's region.
  function CheckQueue(s: State): State {
    if s.abort then s.(worker := Exited)
    else if s.public == [] then s.(worker := Blocked)
    else s.(private := s.public, public := s.private, worker := Draining)
  }

  function StopNext(s: State): State {
    match s.shutdown
    case NotCalled => s.(shutdown := Called)
    case Called => s.(abort := true, shutdown := AbortSet)
    case AbortSet => s.(privateAbort := true, shutdown := PrivateSet)
    case PrivateSet => s.(permit := true, shutdown := ReleaseDone)
    case ReleaseDone => if s.worker == NotStarted || s.worker == Exited then s.(shutdown := Joined) else s
    case Joined => s.(destroyed := s.destroyed + s.private + s.public, private := [], public := [], shutdown := Done)
    case Done => s
  }

  // ---------- Invariant ----------

  // Every accepted task, in the order in which it is or would be executed.
  function Everything(s: State): seq<Task> {
    s.ran + s.destroyed + s.private + s.public
  }

  // Tasks of one kind appear in the order of their numbers, which is the order of acceptance.
  predicate InOrder(tasks: seq<Task>) {
    forall i, j :: 0 <= i < j < |tasks| && tasks[i].local == tasks[j].local ==> tasks[i].id < tasks[j].id
  }

  predicate Bounded(tasks: seq<Task>, n: nat) {
    forall i :: 0 <= i < |tasks| ==> tasks[i].id < n
  }

  predicate OrderInv(s: State) {
    && InOrder(Everything(s)) && Bounded(Everything(s), |s.accepted|)
    && multiset(Everything(s)) == multiset(s.accepted)
    && (forall i :: 0 <= i < |s.public| ==> !s.public[i].local)
    && (forall i :: 0 <= i < |s.accepted| ==> s.accepted[i].id == i)
  }

  predicate WorkerInv(s: State) {
    && (s.worker == NotStarted || s.worker == Top || s.worker == Blocked || s.worker == Woken ==> s.private == [])
    && (s.worker == NotStarted ==> s.public == [])
    && (s.destroyed != [] ==> s.worker == Exited || s.shutdown == Done)
    && (s.worker == Exited ==> s.abort)
  }

  predicate ShutdownInv(s: State) {
    && (s.abort <==> s.shutdown != NotCalled && s.shutdown != Called)
    && (s.privateAbort <==> s.abort && s.shutdown != AbortSet)
    && (s.shutdown == Joined || s.shutdown == Done ==> s.worker == NotStarted || s.worker == Exited)
    && (s.shutdown == Done ==> s.private == [] && s.public == [])
  }

  predicate WakeInv(s: State) {
    s.worker == Blocked && (s.public != [] || s.abort) ==>
      s.permit || s.releasing > 0 || s.shutdown == AbortSet || s.shutdown == PrivateSet
  }

  predicate Inv(s: State) {
    OrderInv(s) && Control(s)
  }

  // New tasks join behind all older tasks of their kind.
  lemma {:induction false} InsertKeepsOrder(before: seq<Task>, after: seq<Task>, first: nat, count: nat, kind: bool)
    requires InOrder(before + after) && Bounded(before + after, first)
    requires forall i :: 0 <= i < |after| ==> after[i].local != kind
    ensures var all := before + NewTasks(first, count, kind) + after;
            InOrder(all) && Bounded(all, first + count)
  {
    var tasks := NewTasks(first, count, kind);
    var prior := before + after;
    var all := before + tasks + after;
    forall i | 0 <= i < |all| ensures all[i].id < first + count {
      if i >= |before| + count { assert all[i] == prior[i - count]; }
      if i < |before| { assert all[i] == prior[i]; }
    }
    forall i, j | 0 <= i < j < |all| && all[i].local == all[j].local ensures all[i].id < all[j].id {
      if i < |before| { assert all[i] == prior[i]; }
      if i >= |before| + count { assert all[i] == prior[i - count]; }
      if j < |before| { assert all[j] == prior[j]; }
      if j >= |before| + count { assert all[j] == prior[j - count]; }
    }
  }

  lemma {:induction false} ForeignKeepsOrder(s: State, count: nat)
    requires OrderInv(s)
    ensures var tasks := NewTasks(|s.accepted|, count, false);
            OrderInv(s.(public := s.public + tasks, accepted := s.accepted + tasks))
  {
    var all, tasks := Everything(s), NewTasks(|s.accepted|, count, false);
    assert all + [] == all;
    InsertKeepsOrder(all, [], |s.accepted|, count, false);
    assert Everything(s.(public := s.public + tasks, accepted := s.accepted + tasks)) == all + tasks + [];
  }

  lemma {:induction false} LocalKeepsOrder(s: State, count: nat)
    requires OrderInv(s)
    ensures var tasks := NewTasks(|s.accepted|, count, true);
            OrderInv(s.(private := s.private + tasks, accepted := s.accepted + tasks))
  {
    var before, tasks := s.ran + s.destroyed + s.private, NewTasks(|s.accepted|, count, true);
    var t := s.(private := s.private + tasks, accepted := s.accepted + tasks);
    assert Everything(s) == before + s.public;
    InsertKeepsOrder(before, s.public, |s.accepted|, count, true);
    assert Everything(t) == before + tasks + s.public;
    assert multiset(before + tasks + s.public) == multiset(before + s.public) + multiset(tasks);
  }

  lemma {:induction false} SameOrder(s: State, t: State)
    requires OrderInv(s) && Everything(t) == Everything(s) && t.accepted == s.accepted
    requires t.public == s.public || t.public == []
    ensures OrderInv(t)
  {
  }

  lemma {:induction false} WorkKeepsEverything(s: State)
    requires WorkerInv(s) && ShutdownInv(s)
    ensures Everything(WorkNext(s)) == Everything(s)
  {
    if s.worker == Draining && s.private != [] {
      assert s.private == [s.private[0]] + s.private[1..];
    }
  }

  lemma {:induction false} StopKeepsEverything(s: State)
    ensures Everything(StopNext(s)) == Everything(s)
  {
    if s.shutdown == Joined {
      assert s.ran + (s.destroyed + s.private + s.public) + [] + [] == s.ran + s.destroyed + s.private + s.public;
    }
  }

  lemma {:induction false} NextKeepsOrder(s: State, a: Action)
    requires Inv(s)
    ensures OrderInv(Next(s, a))
  {
    match a
    case EnqueueForeign(count) => EnqueueForeignKeepsOrder(s, count);
    case Release => SameOrder(s, Next(s, a));
    case EnqueueLocal(count) => EnqueueLocalKeepsOrder(s, count);
    case Work => WorkKeepsOrder(s);
    case Stop => StopKeepsOrder(s);
  }

  lemma {:induction false} EnqueueLocalKeepsOrder(s: State, count: nat)
    requires OrderInv(s)
    ensures OrderInv(Next(s, EnqueueLocal(count)))
  {
    if Next(s, EnqueueLocal(count)) != s { LocalKeepsOrder(s, count); }
  }

  lemma {:induction false} EnqueueForeignKeepsOrder(s: State, count: nat)
    requires OrderInv(s)
    ensures OrderInv(Next(s, EnqueueForeign(count)))
  {
    if !s.abort {
      var tasks := NewTasks(|s.accepted|, count, false);
      var t := s.(public := s.public + tasks, accepted := s.accepted + tasks);
      ForeignKeepsOrder(s, count);
      SameOrder(t, Next(s, EnqueueForeign(count)));
    }
  }

  lemma {:induction false} WorkKeepsOrder(s: State)
    requires Inv(s)
    ensures OrderInv(WorkNext(s))
  {
    WorkKeepsEverything(s);
    SameOrder(s, WorkNext(s));
  }

  lemma {:induction false} StopKeepsOrder(s: State)
    requires Inv(s)
    ensures OrderInv(StopNext(s))
  {
    StopKeepsEverything(s);
    SameOrder(s, StopNext(s));
  }

  predicate Control(s: State) {
    WorkerInv(s) && ShutdownInv(s) && WakeInv(s)
  }

  lemma {:induction false} WorkKeepsControl(s: State)
    requires Control(s)
    ensures Control(WorkNext(s))
  {
  }

  lemma {:induction false} StopKeepsControl(s: State)
    requires Control(s)
    ensures Control(StopNext(s))
  {
  }

  lemma {:induction false} NextKeepsControl(s: State, a: Action)
    requires Control(s)
    ensures Control(Next(s, a))
  {
    match a
    case Work => WorkKeepsControl(s);
    case Stop => StopKeepsControl(s);
    case _ =>
  }

  lemma {:induction false} NextKeepsInv(s: State, a: Action)
    requires Inv(s)
    ensures Inv(Next(s, a))
  {
    NextKeepsOrder(s, a);
    NextKeepsControl(s, a);
  }

  lemma {:induction false} RunKeepsInv(actions: seq<Action>)
    ensures Inv(Run(Initial(), actions))
  {
    if |actions| > 0 {
      RunKeepsInv(actions[..|actions| - 1]);
      NextKeepsInv(Run(Initial(), actions[..|actions| - 1]), actions[|actions| - 1]);
    }
  }

  // ---------- What every interleaving guarantees ----------

  /** No wake-up is lost: a blocked worker with work, or with a shutdown, has a permit waiting or coming. */
  lemma {:induction false} BlockedWorkerIsWoken(actions: seq<Action>)
    ensures var s := Run(Initial(), actions);
            s.worker == Blocked && (s.public != [] || s.abort) ==>
              s.permit || s.releasing > 0 || s.shutdown == AbortSet || s.shutdown == PrivateSet
  {
    RunKeepsInv(actions);
  }

  /** Foreign tasks are executed in the order in which they were enqueued, and so are local ones:
      numbers go up along the executed tasks of a kind, and every task of that kind that was not
      executed was enqueued after all of them. */
  lemma {:induction false} ExecutedInEnqueueOrder(actions: seq<Action>)
    ensures var s := Run(Initial(), actions);
            && InOrder(s.ran)
            && (forall x, y :: x in s.ran && y in s.destroyed + s.private + s.public && x.local == y.local ==>
                  x.id < y.id)
  {
    RunKeepsInv(actions);
    RanComesFirst(Run(Initial(), actions));
  }

  lemma {:induction false} RanComesFirst(s: State)
    requires InOrder(Everything(s))
    ensures InOrder(s.ran)
    ensures forall x, y :: x in s.ran && y in s.destroyed + s.private + s.public && x.local == y.local ==> x.id < y.id
  {
    var all, rest := Everything(s), s.destroyed + s.private + s.public;
    assert all == s.ran + rest;
    forall x, y | x in s.ran && y in rest && x.local == y.local ensures x.id < y.id {
      var i :| 0 <= i < |s.ran| && s.ran[i] == x;
      var j :| 0 <= j < |rest| && rest[j] == y;
      assert all[i] == x && all[|s.ran| + j] == y;
    }
    forall i, j | 0 <= i < j < |s.ran| && s.ran[i].local == s.ran[j].local ensures s.ran[i].id < s.ran[j].id {
      assert all[i] == s.ran[i] && all[j] == s.ran[j];
    }
  }

  /** At any time each accepted task is in exactly one place; after `shutdown` it was executed once or
      destroyed once. */
  lemma {:induction false} TasksAreConserved(actions: seq<Action>)
    ensures var s := Run(Initial(), actions);
            && multiset(s.accepted) ==
               multiset(s.ran) + multiset(s.destroyed) + multiset(s.private) + multiset(s.public)
            && (forall i, j :: 0 <= i < j < |s.accepted| ==> s.accepted[i] != s.accepted[j])
            && (s.shutdown == Done ==> multiset(s.accepted) == multiset(s.ran) + multiset(s.destroyed))
  {
    RunKeepsInv(actions);
    var s := Run(Initial(), actions);
    assert multiset(Everything(s)) ==
           multiset(s.ran) + multiset(s.destroyed) + multiset(s.private) + multiset(s.public);
  }

  // ---------- Tasks can always run, and shutdown can always end ----------

  lemma {:induction false} RunLast(s: State, front: seq<Action>, a: Action)
    ensures Run(s, front + [a]) == Next(Run(s, front), a)
  {
    assert (front + [a])[..|front|] == front;
  }

  lemma {:induction false} RunCons(s: State, a: Action, rest: seq<Action>)
    ensures Run(s, [a] + rest) == Run(Next(s, a), rest)
  {
    if rest == [] {
      assert [a] + rest == [] + [a];
      RunLast(s, [], a);
    } else {
      var front, last := rest[..|rest| - 1], rest[|rest| - 1];
      assert rest == front + [last];
      assert [a] + rest == ([a] + front) + [last];
      RunCons(s, a, front);
      RunLast(s, [a] + front, last);
      RunLast(Next(s, a), front, last);
    }
  }

  function PlaceWeight(w: Worker): nat {
    match w
    case Running(_) => 4
    case Draining => 3
    case Blocked => 2
    case Woken => 1
    case Top => 1
    case _ => 0
  }

  function Effort(s: State): nat {
    5 * |s.public| + 2 * |s.private| + s.releasing + PlaceWeight(s.worker)
  }

  predicate Settled(s: State) {
    s.public == [] && s.private == [] && !s.worker.Running? && !s.worker.Draining?
  }

  lemma {:induction false} WorkProgress(s: State) returns (a: Action)
    requires Control(s) && !s.abort && !Settled(s)
    ensures (a == Work || a == Release) && Effort(Next(s, a)) < Effort(s)
    ensures !Next(s, a).abort && Next(s, a).accepted == s.accepted
  {
    if s.worker == Blocked && !s.permit {
      a := Release;
    } else {
      a := Work;
    }
  }

  lemma {:induction false} CanSettle(s: State) returns (more: seq<Action>)
    requires Inv(s) && !s.abort
    ensures Inv(Run(s, more)) && !Run(s, more).abort && Settled(Run(s, more)) && Run(s, more).accepted == s.accepted
    decreases Effort(s)
  {
    if Settled(s) {
      more := [];
    } else {
      var a := WorkProgress(s);
      NextKeepsInv(s, a);
      var rest := CanSettle(Next(s, a));
      RunCons(s, a, rest);
      more := [a] + rest;
    }
  }

  /** Until `shutdown` every accepted task can run: some schedule of the worker alone executes exactly the tasks that
      were accepted, each once. */
  lemma {:induction false} EveryTaskCanRun(actions: seq<Action>) returns (more: seq<Action>)
    requires !Run(Initial(), actions).abort
    ensures var s := Run(Initial(), actions);
            var t := Run(s, more);
            t.accepted == s.accepted && multiset(t.ran) == multiset(s.accepted) && t.destroyed == []
  {
    RunKeepsInv(actions);
    more := CanSettle(Run(Initial(), actions));
    var t := Run(Run(Initial(), actions), more);
    assert Everything(t) == t.ran;
  }

  function StopWeight(shutdown: Shutdown): nat {
    match shutdown
    case NotCalled => 6
    case Called => 5
    case AbortSet => 4
    case PrivateSet => 3
    case ReleaseDone => 2
    case Joined => 1
    case Done => 0
  }

  function ExitWeight(s: State): nat {
    (match s.worker
     case Running(_) => 5
     case Draining => 4
     case Blocked => 3
     case Woken => 2
     case Top => 2
     case _ => 0) + s.releasing
  }

  lemma {:induction false} StopProgress(s: State) returns (a: Action)
    requires Control(s) && s.shutdown != Done
    ensures Next(s, a).accepted == s.accepted
    ensures a == Work || a == Release || a == Stop
    ensures StopWeight(Next(s, a).shutdown) + ExitWeight(Next(s, a)) < StopWeight(s.shutdown) + ExitWeight(s)
  {
    if s.shutdown != ReleaseDone || s.worker == NotStarted || s.worker == Exited {
      a := Stop;
    } else if s.worker == Blocked && !s.permit {
      a := Release;
    } else {
      a := Work;
    }
  }

  lemma {:induction false} CanStop(s: State) returns (more: seq<Action>)
    requires Inv(s)
    ensures Run(s, more).shutdown == Done && Run(s, more).accepted == s.accepted
    decreases StopWeight(s.shutdown) + ExitWeight(s)
  {
    if s.shutdown == Done {
      more := [];
    } else {
      var a := StopProgress(s);
      NextKeepsInv(s, a);
      var rest := CanStop(Next(s, a));
      RunCons(s, a, rest);
      more := [a] + rest;
    }
  }

  /** From every reachable state some schedule, without new tasks, ends `shutdown`. */
  lemma {:induction false} ShutdownIsAlwaysPossible(actions: seq<Action>) returns (more: seq<Action>)
    ensures var t := Run(Run(Initial(), actions), more);
            t.shutdown == Done && t.accepted == Run(Initial(), actions).accepted
  {
    RunKeepsInv(actions);
    more := CanStop(Run(Initial(), actions));
  }

  /** A foreign enqueue is accepted until `shutdown` sets its flag; a local one, from a running task, until the private
      flag is set. Accepted tasks join the end of their queue. */
  lemma {:induction false} EnqueueOutcome(actions: seq<Action>, count: nat)
    ensures var s := Run(Initial(), actions);
            var t, u := Next(s, EnqueueForeign(count)), Next(s, EnqueueLocal(count));
            && (s.shutdown == NotCalled || s.shutdown == Called ==>
                  && s.public <= t.public && |t.public| == |s.public| + count && t.private == s.private
                  && t.accepted == s.accepted + t.public[|s.public|..] && t.worker != NotStarted
                  && (t.releasing == if s.worker != NotStarted && s.public == [] then s.releasing + 1 else s.releasing))
            && (s.shutdown != NotCalled && s.shutdown != Called ==> t == s)
            && (s.worker.Running? && StopWeight(s.shutdown) > 3 ==>
                  && s.private <= u.private && |u.private| == |s.private| + count && u.public == s.public
                  && u.accepted == s.accepted + u.private[|s.private|..])
            && (!s.worker.Running? || StopWeight(s.shutdown) <= 3 ==> u == s)
  {
    RunKeepsInv(actions);
    var s := Run(Initial(), actions);
    var tasks, locals := NewTasks(|s.accepted|, count, false), NewTasks(|s.accepted|, count, true);
    assert (s.public + tasks)[|s.public|..] == tasks && (s.private + locals)[|s.private|..] == locals;
  }

  /** A worker that finds no task sleeps, and goes on only with a permit, which it uses up; one that finds tasks takes
      them all, and starts the oldest first. */
  lemma {:induction false} WorkOutcome(actions: seq<Action>)
    requires !Run(Initial(), actions).abort
    ensures var s := Run(Initial(), actions);
            var t := Next(s, Work);
            && (s.worker == Top || s.worker == Woken ==>
                  if s.public == [] then t.worker == Blocked && t.private == []
                  else t.worker == Draining && t.private == s.public && t.public == [])
            && (s.worker == Blocked ==> if s.permit then t.worker == Woken && !t.permit else t == s)
            && (s.worker == Draining && s.private != [] ==>
                  && t.worker == Running(s.private[0]) && t.ran == s.ran + [s.private[0]]
                  && t.private == s.private[1..])
            && (s.worker == Draining && s.private == [] ==> t.worker == Top)
  {
    RunKeepsInv(actions);
  }

  /** After `shutdown` nothing is accepted or executed any more. */
  lemma {:induction false} ShutdownIsFinal(actions: seq<Action>, more: seq<Action>)
    requires Run(Initial(), actions).shutdown == Done
    ensures var s := Run(Initial(), actions);
            var t := Run(s, more);
            Inv(t) && t.shutdown == Done && t.accepted == s.accepted && t.ran == s.ran && t.destroyed == s.destroyed
  {
    RunKeepsInv(actions);
    if |more| > 0 {
      ShutdownIsFinal(actions, more[..|more| - 1]);
      var t := Run(Run(Initial(), actions), more[..|more| - 1]);
      NextKeepsInv(t, more[|more| - 1]);
    }
  }
}
