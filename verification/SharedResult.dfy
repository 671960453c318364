/**
  `shared_result_state`: coroutines push themselves on a lock-free stack of intrusive
  nodes with a compare-exchange loop; when the result is ready, one finisher replaces
  the stack by a sentinel, reverses it in place and resumes the coroutines. The node of a
  coroutine lives in its frame, so once the coroutine runs on, its node may hold anything.
 */
module SharedResult {
  import opened Collections

  // A shared_await_context*: null, the sentinel result_ready_constant() or a node.
  datatype Link = Null | Ready | Node(id: nat)

  // One coroutine inside shared_result_state_base::await.
  datatype Awaiter =
    | Loading                                   // top of the loop
    | Linking(before: Link)                     // loaded, before `awaiter.next = awaiter_before`
    | Swapping(before: Link)                    // before the compare-exchange
    | Suspended                                 // await returned true
    | Refused                                   // await returned false
    | Resumed

  // on_result_finished. `left` counts the nodes that the reversal has not reached.
  datatype Finisher =
    | Idle                                      // the result is not ready
    | StatusStored                              // m_status stored, before the exchange
    | Reversing(current: Link, prev: Link, left: nat)
    | Resuming(current: Link)                   // top of the resume loop
    | Calling(id: nat, rest: Link)              // handle and next are read, before the call
    | Over

  datatype State = State(
    status: bool,                               // m_status is no longer idle
    head: Link,                                 // m_awaiters
    next: seq<Link>,                            // the next field of each node
    awaiters: seq<Awaiter>,
    finisher: Finisher,
    pushed: seq<nat>,                           // successful pushes, in order
    resumed: seq<nat>)                          // resumed coroutines, in order

  datatype Action =
    | Await(i: nat)                             // the next step of await in coroutine i
    | SpuriousFailure(i: nat)                   // compare_exchange_weak fails though the values agree
    | Finish                                    // the next step of on_result_finished
    | Reuse(i: nat, junk: Link)                 // the frame of a running coroutine is overwritten

  function Initial(n: nat): State {
    State(false, Null, seq(n, i => Null), seq(n, i => Loading), Idle, [], [])
  }

  function Run(s: State, actions: seq<Action>): State {
    if |actions| == 0 then s
    else Next(Run(s, actions[..|actions| - 1]), actions[|actions| - 1])
  }

  function Next(s: State, a: Action): State {
    match a
    case Await(i) => if i < |s.awaiters| && i < |s.next| then AwaitNext(s, i) else s
    case SpuriousFailure(i) =>
      if i < |s.awaiters| && s.awaiters[i].Swapping? then s.(awaiters := s.awaiters[i := Loading]) else s
    case Finish => FinishNext(s)
    case Reuse(i, junk) =>
      if i < |s.awaiters| && i < |s.next| && (s.awaiters[i] == Resumed || s.awaiters[i] == Refused)
      then s.(next := s.next[i := junk]) else s
  }

  function AwaitNext(s: State, i: nat): State
    requires i < |s.awaiters| && i < |s.next|
  {
    match s.awaiters[i]
    case Loading => s.(awaiters := s.awaiters[i := if s.head == Ready then Refused else Linking(s.head)])
    case Linking(before) => s.(next := s.next[i := before], awaiters := s.awaiters[i := Swapping(before)])
    case Swapping(before) =>
      if s.head == before then s.(head := Node(i), awaiters := s.awaiters[i := Suspended], pushed := s.pushed + [i])
      else s.(awaiters := s.awaiters[i := Loading])
    case _ => s
  }

  function FinishNext(s: State): State {
    match s.finisher
    case Idle => s.(status := true, finisher := StatusStored)
    case StatusStored => s.(head := Ready, finisher := Reversing(s.head, Null, |s.pushed|))
    case Reversing(current, prev, left) =>
      if current.Node? && current.id < |s.next| then
        s.(next := s.next[current.id := prev],
           finisher := Reversing(s.next[current.id], current, if left > 0 then left - 1 else 0))
      else s.(finisher := Resuming(prev))
    case Resuming(current) =>
      if current.Node? && current.id < |s.next| then s.(finisher := Calling(current.id, s.next[current.id]))
      else s.(finisher := Over)
    case Calling(id, rest) =>
      if id < |s.awaiters| then
        s.(awaiters := s.awaiters[id := Resumed], resumed := s.resumed + [id], finisher := Resuming(rest))
      else s
    case Over => s
  }

  // ---------- Invariant ----------

  function LinkAt(ids: seq<nat>, j: int): Link {
    if 0 <= j < |ids| then Node(ids[j]) else Null
  }

  // Node ids[j] points at its predecessor for each j < m: a stack whose top is ids[m - 1].
  predicate Stack(next: seq<Link>, ids: seq<nat>, m: nat) {
    && m <= |ids|
    && (forall j :: 0 <= j < m ==> ids[j] < |next|)
    && (forall j {:trigger next[ids[j]]} :: 0 <= j < m ==> next[ids[j]] == LinkAt(ids, j - 1))
  }

  // Node ids[j] points at its successor for each j >= m: a queue that starts with ids[m].
  predicate Queue(next: seq<Link>, ids: seq<nat>, m: nat) {
    && m <= |ids|
    && (forall j :: m <= j < |ids| ==> ids[j] < |next|)
    && (forall j {:trigger next[ids[j]]} :: m <= j < |ids| ==> next[ids[j]] == LinkAt(ids, j + 1))
  }

  predicate ListInv(s: State) {
    var m := |s.resumed|;
    match s.finisher
    case Idle =>
      Stack(s.next, s.pushed, |s.pushed|) && s.head == LinkAt(s.pushed, |s.pushed| - 1) && m == 0 && !s.status
    case StatusStored =>
      Stack(s.next, s.pushed, |s.pushed|) && s.head == LinkAt(s.pushed, |s.pushed| - 1) && m == 0 && s.status
    case Reversing(current, prev, left) =>
      && s.head == Ready && s.status && m == 0
      && Stack(s.next, s.pushed, left) && current == LinkAt(s.pushed, left - 1)
      && Queue(s.next, s.pushed, left) && prev == LinkAt(s.pushed, left)
    case Resuming(current) =>
      s.head == Ready && s.status && Queue(s.next, s.pushed, m) && current == LinkAt(s.pushed, m)
    case Calling(id, rest) =>
      && s.head == Ready && s.status && m < |s.pushed| && id == s.pushed[m]
      && Queue(s.next, s.pushed, m + 1) && rest == LinkAt(s.pushed, m + 1)
    case Over => s.head == Ready && s.status && m == |s.pushed|
  }

  // Pushed coroutines are suspended, except that a prefix of them has been resumed.
  predicate OrderInv(s: State) {
    && Distinct(s.pushed)
    && |s.resumed| <= |s.pushed|
    && (forall j :: 0 <= j < |s.resumed| ==> s.resumed[j] == s.pushed[j])
    && (forall j :: 0 <= j < |s.pushed| ==>
          s.pushed[j] < |s.awaiters| && s.awaiters[s.pushed[j]] == if j < |s.resumed| then Resumed else Suspended)
  }

  predicate AwaiterInv(s: State, i: nat)
    requires i < |s.awaiters| && |s.next| == |s.awaiters|
  {
    match s.awaiters[i]
    case Loading => true
    case Linking(before) => before != Ready
    case Swapping(before) => before != Ready && s.next[i] == before
    case Refused => s.head == Ready
    case _ => i in s.pushed
  }

  predicate Inv(s: State) {
    && |s.next| == |s.awaiters|
    && OrderInv(s)
    && ListInv(s)
    && forall i :: 0 <= i < |s.awaiters| ==> AwaiterInv(s, i)
  }

  // ---------- The chain of nodes ----------

  lemma {:induction false} PushExtendsStack(next: seq<Link>, ids: seq<nat>, i: nat)
    requires Stack(next, ids, |ids|) && i < |next| && next[i] == LinkAt(ids, |ids| - 1)
    ensures Stack(next, ids + [i], |ids| + 1)
  {
    forall j | 0 <= j <= |ids|
      ensures (ids + [i])[j] < |next| && next[(ids + [i])[j]] == LinkAt(ids + [i], j - 1)
    {
      if j < |ids| { assert next[ids[j]] == LinkAt(ids, j - 1); }
    }
  }

  lemma {:induction false} ReversalStep(next: seq<Link>, ids: seq<nat>, m: nat)
    requires 0 < m <= |ids| && Distinct(ids) && Stack(next, ids, m) && Queue(next, ids, m)
    ensures next[ids[m - 1]] == LinkAt(ids, m - 2)
    ensures var next' := next[ids[m - 1] := LinkAt(ids, m)];
            Stack(next', ids, m - 1) && Queue(next', ids, m - 1)
  {
    var next' := next[ids[m - 1] := LinkAt(ids, m)];
    forall j | 0 <= j < m - 1 ensures next'[ids[j]] == LinkAt(ids, j - 1) { assert next[ids[j]] == LinkAt(ids, j - 1); }
    forall j | m - 1 <= j < |ids| ensures next'[ids[j]] == LinkAt(ids, j + 1) {
      if j >= m { assert next[ids[j]] == LinkAt(ids, j + 1); }
    }
  }

  lemma {:induction false} WriteOutsideStack(next: seq<Link>, ids: seq<nat>, m: nat, i: nat, junk: Link)
    requires i < |next| && Stack(next, ids, m) && forall j :: 0 <= j < m ==> ids[j] != i
    ensures Stack(next[i := junk], ids, m)
  {
    forall j | 0 <= j < m ensures next[i := junk][ids[j]] == LinkAt(ids, j - 1) {
      assert next[ids[j]] == LinkAt(ids, j - 1);
    }
  }

  lemma {:induction false} WriteOutsideQueue(next: seq<Link>, ids: seq<nat>, m: nat, i: nat, junk: Link)
    requires i < |next| && Queue(next, ids, m) && forall j :: m <= j < |ids| ==> ids[j] != i
    ensures Queue(next[i := junk], ids, m)
  {
    forall j | m <= j < |ids| ensures next[i := junk][ids[j]] == LinkAt(ids, j + 1) {
      assert next[ids[j]] == LinkAt(ids, j + 1);
    }
  }

  // Coroutine i is not among the suspended ones, so writing its node leaves the chains alone.
  lemma {:induction false} WriteOutside(s: State, i: nat, junk: Link, m: nat)
    requires Inv(s) && i < |s.awaiters| && s.awaiters[i] != Suspended && |s.resumed| <= m
    ensures Queue(s.next, s.pushed, m) ==> Queue(s.next[i := junk], s.pushed, m)
    ensures s.resumed == [] && Stack(s.next, s.pushed, m) ==> Stack(s.next[i := junk], s.pushed, m)
  {
    if Queue(s.next, s.pushed, m) { WriteOutsideQueue(s.next, s.pushed, m, i, junk); }
    if s.resumed == [] && Stack(s.next, s.pushed, m) { WriteOutsideStack(s.next, s.pushed, m, i, junk); }
  }

  lemma {:induction false} WriteKeepsLists(s: State, i: nat, junk: Link)
    requires Inv(s) && i < |s.awaiters| && s.awaiters[i] != Suspended
    ensures ListInv(s.(next := s.next[i := junk]))
  {
    match s.finisher
    case Reversing(_, _, left) => WriteOutside(s, i, junk, left);
    case Calling(_, _) => WriteOutside(s, i, junk, |s.resumed| + 1);
    case Resuming(_) => WriteOutside(s, i, junk, |s.resumed|);
    case _ => WriteOutside(s, i, junk, |s.pushed|);
  }

  // ---------- Preservation ----------

  lemma {:induction false} AwaitKeepsOrder(s: State, i: nat)
    requires Inv(s) && i < |s.awaiters|
    ensures OrderInv(AwaitNext(s, i))
  {
    assert AwaiterInv(s, i);
  }

  lemma {:induction false} AwaitKeepsLists(s: State, i: nat)
    requires Inv(s) && i < |s.awaiters|
    ensures ListInv(AwaitNext(s, i))
  {
    assert AwaiterInv(s, i);
    match s.awaiters[i]
    case Linking(before) => WriteKeepsLists(s, i, before);
    case Swapping(before) =>
      if s.head == before && (s.finisher == Idle || s.finisher == StatusStored) {
        PushExtendsStack(s.next, s.pushed, i);
      }
    case _ =>
  }

  lemma {:induction false} AwaitKeepsAwaiters(s: State, i: nat, j: nat)
    requires Inv(s) && i < |s.awaiters| && j < |s.awaiters|
    ensures AwaiterInv(AwaitNext(s, i), j)
  {
    assert AwaiterInv(s, i);
    assert AwaiterInv(s, j);
  }

  lemma {:induction false} CallKeepsOrder(s: State)
    requires OrderInv(s) && ListInv(s) && s.finisher.Calling?
    ensures OrderInv(FinishNext(s))
  {
  }

  lemma {:induction false} FinishKeepsOrder(s: State)
    requires Inv(s)
    ensures OrderInv(FinishNext(s))
  {
    if s.finisher.Calling? { CallKeepsOrder(s); }
  }

  lemma {:induction false} ReversingKeepsLists(s: State)
    requires OrderInv(s) && ListInv(s) && s.finisher.Reversing?
    ensures ListInv(FinishNext(s))
  {
    if s.finisher.left > 0 { ReversalStep(s.next, s.pushed, s.finisher.left); }
  }

  lemma {:induction false} ResumingKeepsLists(s: State)
    requires OrderInv(s) && ListInv(s) && !s.finisher.Reversing?
    ensures ListInv(FinishNext(s))
  {
  }

  lemma {:induction false} FinishKeepsLists(s: State)
    requires Inv(s)
    ensures ListInv(FinishNext(s))
  {
    if s.finisher.Reversing? { ReversingKeepsLists(s); } else { ResumingKeepsLists(s); }
  }

  lemma {:induction false} FinishKeepsAwaiters(s: State, j: nat)
    requires Inv(s) && j < |s.awaiters|
    ensures AwaiterInv(FinishNext(s), j)
  {
    assert AwaiterInv(s, j);
  }

  lemma {:induction false} AwaitKeepsInv(s: State, i: nat)
    requires Inv(s) && i < |s.awaiters|
    ensures Inv(AwaitNext(s, i))
  {
    AwaitKeepsOrder(s, i);
    AwaitKeepsLists(s, i);
    forall j | 0 <= j < |s.awaiters| ensures AwaiterInv(AwaitNext(s, i), j) { AwaitKeepsAwaiters(s, i, j); }
  }

  lemma {:induction false} FinishKeepsInv(s: State)
    requires Inv(s)
    ensures Inv(FinishNext(s))
  {
    FinishKeepsOrder(s);
    FinishKeepsLists(s);
    forall j | 0 <= j < |s.awaiters| ensures AwaiterInv(FinishNext(s), j) { FinishKeepsAwaiters(s, j); }
  }

  lemma {:induction false} FailureKeepsInv(s: State, i: nat)
    requires Inv(s)
    ensures Inv(Next(s, SpuriousFailure(i)))
  {
    forall j | 0 <= j < |s.awaiters| ensures AwaiterInv(Next(s, SpuriousFailure(i)), j) { assert AwaiterInv(s, j); }
  }

  lemma {:induction false} ReuseKeepsInv(s: State, i: nat, junk: Link)
    requires Inv(s)
    ensures Inv(Next(s, Reuse(i, junk)))
  {
    if i < |s.awaiters| && s.awaiters[i] != Suspended { WriteKeepsLists(s, i, junk); }
    forall j | 0 <= j < |s.awaiters| ensures AwaiterInv(Next(s, Reuse(i, junk)), j) { assert AwaiterInv(s, j); }
  }

  lemma {:induction false} NextKeepsInv(s: State, a: Action)
    requires Inv(s)
    ensures Inv(Next(s, a))
  {
    match a
    case Await(i) => if i < |s.awaiters| { AwaitKeepsInv(s, i); }
    case SpuriousFailure(i) => FailureKeepsInv(s, i);
    case Finish => FinishKeepsInv(s);
    case Reuse(i, junk) => ReuseKeepsInv(s, i, junk);
  }

  lemma {:induction false} RunKeepsInv(n: nat, actions: seq<Action>)
    ensures Inv(Run(Initial(n), actions))
  {
    if |actions| > 0 {
      RunKeepsInv(n, actions[..|actions| - 1]);
      NextKeepsInv(Run(Initial(n), actions[..|actions| - 1]), actions[|actions| - 1]);
    }
  }

  // ---------- What every interleaving guarantees ----------

  /** Coroutines are resumed in the order of their pushes, each at most once; when the finisher
      is through, exactly the pushed ones have been resumed. */
  lemma {:induction false} ResumedInPushOrder(n: nat, actions: seq<Action>)
    ensures var s := Run(Initial(n), actions);
            && Distinct(s.pushed)
            && s.resumed <= s.pushed
            && (s.finisher == Over ==> s.resumed == s.pushed)
  {
    RunKeepsInv(n, actions);
  }

  /** A coroutine whose `await` returned true is suspended until it is resumed, and resumed only then. */
  lemma {:induction false} SuspendedUntilResumed(n: nat, actions: seq<Action>, i: nat)
    requires i < |Run(Initial(n), actions).awaiters|
    ensures var s := Run(Initial(n), actions);
            && (s.awaiters[i] == Suspended <==> i in s.pushed && i !in s.resumed)
            && (s.awaiters[i] == Resumed <==> i in s.resumed)
            && (s.awaiters[i] == Refused ==> i !in s.pushed && s.status)
            && (s.awaiters[i] == Resumed ==> s.status)
  {
    RunKeepsInv(n, actions);
    assert AwaiterInv(Run(Initial(n), actions), i);
  }

  predicate Taken(s: State) {
    !s.finisher.Idle? && !s.finisher.StatusStored?
  }

  lemma {:induction false} TakenIsFinal(s: State, a: Action)
    requires Inv(s) && Taken(s)
    ensures Taken(Next(s, a)) && Next(s, a).pushed == s.pushed
  {
    if a.Await? && a.i < |s.awaiters| { assert AwaiterInv(s, a.i); }
  }

  /** After the exchange no `await` suspends any more, whatever it had loaded before. */
  lemma {:induction false} LateAwaitersAreRefused(n: nat, actions: seq<Action>, more: seq<Action>)
    requires Taken(Run(Initial(n), actions))
    ensures var s := Run(Initial(n), actions);
            var t := Run(s, more);
            Inv(t) && Taken(t) && t.pushed == s.pushed
  {
    RunKeepsInv(n, actions);
    if |more| > 0 {
      LateAwaitersAreRefused(n, actions, more[..|more| - 1]);
      var t := Run(Run(Initial(n), actions), more[..|more| - 1]);
      TakenIsFinal(t, more[|more| - 1]);
      NextKeepsInv(t, more[|more| - 1]);
    }
  }

  /** The finisher reads a node only while its coroutine is suspended, hence never one that may be gone. */
  lemma {:induction false} NodesAreReadBeforeResumption(n: nat, actions: seq<Action>)
    ensures var s := Run(Initial(n), actions);
            (s.finisher.Reversing? || s.finisher.Resuming?) && s.finisher.current.Node? ==>
              s.finisher.current.id < |s.awaiters| && s.awaiters[s.finisher.current.id] == Suspended
  {
    RunKeepsInv(n, actions);
  }

  /** An `await` that nobody disturbs is refused at once if the result is ready, and otherwise suspends, pushed last. */
  lemma {:induction false} AwaitOutcome(n: nat, actions: seq<Action>, i: nat)
    requires var s := Run(Initial(n), actions); i < |s.awaiters| && s.awaiters[i] == Loading
    ensures var s := Run(Initial(n), actions);
            var t := Next(s, Await(i));
            var u := Next(Next(t, Await(i)), Await(i));
            && |t.awaiters| == |u.awaiters| == |s.awaiters|
            && if Taken(s) then t.awaiters[i] == Refused && t.pushed == s.pushed
               else u.awaiters[i] == Suspended && u.pushed == s.pushed + [i] && u.head == Node(i)
  {
    RunKeepsInv(n, actions);
    var s := Run(Initial(n), actions);
    assert s.head != Ready <==> !Taken(s);
  }

  /** A push that fails, because the head has changed or for no reason, changes nothing and starts over; the frame of a
      coroutine that runs on may come to hold anything. */
  lemma {:induction false} FailedPush(n: nat, actions: seq<Action>, i: nat, junk: Link)
    requires i < |Run(Initial(n), actions).awaiters|
    ensures var s := Run(Initial(n), actions);
            && |s.next| == |s.awaiters|
            && (s.awaiters[i].Swapping? ==>
                  && Next(s, SpuriousFailure(i)) == s.(awaiters := s.awaiters[i := Loading])
                  && (s.head != s.awaiters[i].before ==> Next(s, Await(i)) == s.(awaiters := s.awaiters[i := Loading])))
            && (s.awaiters[i] == Resumed || s.awaiters[i] == Refused ==>
                  Next(s, Reuse(i, junk)) == s.(next := s.next[i := junk]))
  {
    RunKeepsInv(n, actions);
  }

  function AwaitLeft(s: State, i: nat): nat
    requires i < |s.awaiters|
  {
    match s.awaiters[i]
    case Loading => 3
    case Linking(before) => if before == s.head then 2 else 5
    case Swapping(before) => if before == s.head then 1 else 4
    case _ => 0
  }

  function Awaits(i: nat, k: nat): seq<Action> {
    seq(k, j => Await(i))
  }

  lemma {:induction false} RunLast(s: State, front: seq<Action>, a: Action)
    ensures Run(s, front + [a]) == Next(Run(s, front), a)
  {
    assert (front + [a])[..|front|] == front;
  }

  lemma {:induction false} RunCons(s: State, a: Action, rest: seq<Action>)
    ensures Run(s, [a] + rest) == Run(Next(s, a), rest)
  {
    if rest == [] {
      assert [a] + rest == [] + [a];
      RunLast(s, [], a);
    } else {
      var front, last := rest[..|rest| - 1], rest[|rest| - 1];
      assert rest == front + [last];
      assert [a] + rest == ([a] + front) + [last];
      RunCons(s, a, front);
      RunLast(s, [a] + front, last);
      RunLast(Next(s, a), front, last);
    }
  }

  lemma {:induction false} SettleStep(s: State, i: nat)
    requires Inv(s) && i < |s.awaiters| && AwaitLeft(s, i) > 0
    ensures |AwaitNext(s, i).awaiters| == |s.awaiters| && AwaitLeft(AwaitNext(s, i), i) < AwaitLeft(s, i)
  {
    assert AwaiterInv(s, i);
  }

  lemma {:induction false} CanSettle(s: State, i: nat) returns (k: nat)
    requires Inv(s) && i < |s.awaiters|
    ensures k <= AwaitLeft(s, i) && |Run(s, Awaits(i, k)).awaiters| == |s.awaiters|
    ensures AwaitLeft(Run(s, Awaits(i, k)), i) == 0
    decreases AwaitLeft(s, i)
  {
    if AwaitLeft(s, i) == 0 {
      k := 0;
    } else {
      SettleStep(s, i);
      AwaitKeepsInv(s, i);
      var rest := CanSettle(AwaitNext(s, i), i);
      RunCons(s, Await(i), Awaits(i, rest));
      assert [Await(i)] + Awaits(i, rest) == Awaits(i, rest + 1);
      k := rest + 1;
    }
  }

  /** From every reachable state an `await` that nobody disturbs returns after at most five steps. */
  lemma {:induction false} AwaitSettles(n: nat, actions: seq<Action>, i: nat) returns (k: nat)
    requires i < |Run(Initial(n), actions).awaiters|
    ensures k <= 5
    ensures var t := Run(Run(Initial(n), actions), Awaits(i, k));
            i < |t.awaiters| && (t.awaiters[i] == Suspended || t.awaiters[i] == Refused || t.awaiters[i] == Resumed)
  {
    RunKeepsInv(n, actions);
    k := CanSettle(Run(Initial(n), actions), i);
  }

  /** Once the result is ready, the finisher begins; it takes all that was pushed. */
  lemma {:induction false} FinisherBegins(n: nat, actions: seq<Action>)
    requires !Taken(Run(Initial(n), actions))
    ensures var s := Run(Initial(n), actions);
            Next(s, Finish).status && Taken(Next(Next(s, Finish), Finish)) &&
            Next(Next(s, Finish), Finish).pushed == s.pushed
  {
    RunKeepsInv(n, actions);
  }

  function Remaining(s: State): int {
    match s.finisher
    case Reversing(_, _, left) => left + 2 + 2 * |s.pushed|
    case Resuming(_) => 1 + 2 * (|s.pushed| - |s.resumed|)
    case Calling(_, _) => 2 * (|s.pushed| - |s.resumed|)
    case _ => 0
  }

  /** The reversal and the resume loop terminate: every step of the finisher brings the end
      nearer and no step of a coroutine moves it away. */
  lemma {:induction false} FinisherMakesProgress(n: nat, actions: seq<Action>, a: Action)
    requires Taken(Run(Initial(n), actions))
    ensures var s := Run(Initial(n), actions);
            && 0 <= Remaining(s)
            && (Remaining(s) == 0 <==> s.finisher == Over)
            && Remaining(Next(s, a)) <= Remaining(s)
            && (s.finisher != Over ==> Remaining(Next(s, Finish)) < Remaining(s))
  {
    RunKeepsInv(n, actions);
    TakenIsFinal(Run(Initial(n), actions), a);
    ProgressStep(Run(Initial(n), actions), a);
  }

  lemma {:induction false} ProgressStep(s: State, a: Action)
    requires Inv(s) && Taken(s)
    ensures 0 <= Remaining(s) && (Remaining(s) == 0 <==> s.finisher == Over)
    ensures Remaining(Next(s, a)) <= Remaining(s)
    ensures s.finisher != Over ==> Remaining(Next(s, Finish)) < Remaining(s)
  {
    TakenIsFinal(s, a);
  }

  // ---------- on_result_finished on the heap ----------

  // The coroutines that were resumed, in order.
  class Trace {
    var resumed: seq<nat>

    constructor ()
      ensures resumed == []
    {
      resumed := [];
    }
  }

  class AwaitNode {
    var next: AwaitNode?
    const handle: nat

    constructor (handle: nat)
      ensures this.handle == handle && next == null
    {
      this.handle := handle;
      next := null;
    }

    // caller_handle(): the coroutine runs on and its frame, with this node in it, may be overwritten.
    method Resume(trace: Trace)
      modifies this, trace
      ensures trace.resumed == old(trace.resumed) + [handle]
    {
      next := *;
      trace.resumed := trace.resumed + [handle];
    }
  }

  // nodes[0] is the head; each node points at the next one.
  ghost predicate Linked(head: AwaitNode?, nodes: seq<AwaitNode>)
    reads nodes
  {
    && head == (if |nodes| == 0 then null else nodes[0])
    && (forall i, j :: 0 <= i < j < |nodes| ==> nodes[i] != nodes[j])
    && (forall i {:trigger nodes[i].next} :: 0 <= i < |nodes| ==>
          nodes[i].next == if i + 1 < |nodes| then nodes[i + 1] else null)
  }

  ghost function Handles(nodes: seq<AwaitNode>): seq<nat> {
    seq(|nodes|, i requires 0 <= i < |nodes| => nodes[i].handle)
  }

  ghost function Reversed<T>(s: seq<T>): (r: seq<T>)
    ensures |r| == |s| && forall i :: 0 <= i < |s| ==> r[i] == s[|s| - 1 - i]
  {
    seq(|s|, i requires 0 <= i < |s| => s[|s| - 1 - i])
  }

  /** Reverses the chain that the exchange returned, in place. */
  method Reverse(head: AwaitNode?, ghost nodes: seq<AwaitNode>) returns (front: AwaitNode?)
    requires Linked(head, nodes)
    modifies nodes
    ensures Linked(front, Reversed(nodes))
    ensures front == (if |nodes| == 0 then null else nodes[|nodes| - 1])
    ensures forall i {:trigger nodes[i]} :: 0 <= i < |nodes| ==> nodes[i].next == if i == 0 then null else nodes[i - 1]
  {
    var current := head;
    front := null;
    ghost var done := 0;
    while current != null
      invariant 0 <= done <= |nodes|
      invariant current == if done < |nodes| then nodes[done] else null
      invariant front == if done == 0 then null else nodes[done - 1]
      invariant forall i {:trigger nodes[i].next} :: 0 <= i < |nodes| ==>
                  nodes[i].next == if i >= done then (if i + 1 < |nodes| then nodes[i + 1] else null)
                                   else if i > 0 then nodes[i - 1] else null
      decreases |nodes| - done
    {
      var next := current.next;
      current.next := front;
      front := current;
      current := next;
      done := done + 1;
    }
  }

  // The nodes from number k on are linked, with the given head.
  ghost predicate LinkedFrom(head: AwaitNode?, nodes: seq<AwaitNode>, k: nat)
    reads nodes
  {
    && k <= |nodes| && head == (if k < |nodes| then nodes[k] else null)
    && (forall i, j :: 0 <= i < j < |nodes| ==> nodes[i] != nodes[j])
    && (forall i {:trigger nodes[i].next} :: k <= i < |nodes| ==>
          nodes[i].next == if i + 1 < |nodes| then nodes[i + 1] else null)
  }

  lemma {:induction false} HandlesPrefix(nodes: seq<AwaitNode>, k: nat)
    requires k < |nodes|
    ensures Handles(nodes)[..k + 1] == Handles(nodes)[..k] + [nodes[k].handle]
  {
  }

  /** Takes the stack, newest first, and resumes the coroutines oldest first. */
  method OnResultFinished(awaiters: AwaitNode?, ghost nodes: seq<AwaitNode>, trace: Trace)
    requires Linked(awaiters, nodes)
    modifies nodes, trace
    ensures old(trace.resumed) <= trace.resumed
    ensures var resumed := trace.resumed[|old(trace.resumed)|..];
            |resumed| == |nodes| && forall i :: 0 <= i < |nodes| ==> resumed[i] == nodes[|nodes| - 1 - i].handle
  {
    var current := Reverse(awaiters, nodes);
    ghost var queue, before, done := Reversed(nodes), trace.resumed, 0;
    while current != null
      invariant 0 <= done <= |queue| && trace.resumed == before + Handles(queue)[..done]
      invariant LinkedFrom(current, queue, done)
      decreases |queue| - done
    {
      var node := current;
      assert node == queue[done] && node in nodes;
      HandlesPrefix(queue, done);
      current := current.next;
      node.Resume(trace);
      done := done + 1;
    }
    assert Handles(queue)[..done] == Handles(queue);
  }
}
