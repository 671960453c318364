/**
  The timer queue's requests and its worker thread, which is created on demand and retires when it has been
  idle for too long. Every step below runs under the queue's lock, or touches only what the worker owns.
 */
module TimerWorker {

  import opened TimerPass
  import TimerQueue

  type Request = TimerQueue.Request

  datatype Place = Gone | Waiting | Working(batch: seq<Request>)

  // `accepted`: timers that add_timer took. `unwanted`: timers whose removal was requested.
  // `dropped`: timers that the worker took out for good.
  // `live` counts worker threads in their loop; `firings` logs the callables posted.
  datatype State = State(
    abort: bool, idle: bool, joinable: bool, live: nat, place: Place, queue: seq<Request>, internal: set<Timer>,
    accepted: set<Timer>, cancelled: set<Timer>, unwanted: set<Timer>, dropped: set<Timer>, firings: seq<Timer>)

  datatype Action =
    | AddTimer(timer: Timer, deadline: int)
    | Cancel(timer: Timer)
    | RequestRemoval(timer: Timer)
    | Wake
    | ProcessRequest
    | Visit(timer: Timer)
    | EndPass
    | Shutdown

  function Initial(): State {
    State(false, true, false, 0, Gone, [], {}, {}, {}, {}, {}, [])
  }

  // add_timer: a timer object is handed in once. An idle queue gets a new worker thread first.
  function AddTimerStep(s: State, t: Timer, d: int): State {
    if s.abort || t in s.accepted then s
    else
      var s' :=
        if s.idle then s.(idle := false, joinable := true, live := s.live + 1, place := Waiting, internal := {}) else s;
      s'.(queue := s'.queue + [TimerQueue.Add(t, d)], accepted := s'.accepted + {t})
  }

  // remove_internal_timer, for a timer that was cancelled before: no worker is created for it.
  function RemovalStep(s: State, t: Timer): State {
    s.(queue := s.queue + [TimerQueue.Remove(t)], unwanted := s.unwanted + {t})
  }

  // The end of a wait: the predicate is checked again under the lock, also when the wait timed out. With no
  // timers, no requests and no shutdown the worker retires.
  function WakeStep(s: State): State
    requires s.place.Waiting?
  {
    if s.internal == {} && s.queue == [] && !s.abort then
      s.(idle := true, live := if s.live > 0 then s.live - 1 else 0, place := Gone)
    else if s.abort then s.(live := if s.live > 0 then s.live - 1 else 0, place := Gone, internal := {})
    else s.(place := Working(s.queue), queue := [])
  }

  function RequestStep(s: State): State
    requires s.place.Working? && s.place.batch != []
  {
    var rest := s.(place := Working(s.place.batch[1..]));
    match s.place.batch[0]
    case Add(t, _) => rest.(internal := s.internal + {t})
    case Remove(t) => rest.(internal := s.internal - {t}, dropped := s.dropped + {t})
  }

  function VisitStep(s: State, t: Timer, isOneshot: Timer -> bool): State {
    var s' := if t in s.cancelled then s else s.(firings := s.firings + [t]);
    if isOneshot(t) || t in s.cancelled then s'.(internal := s.internal - {t}, dropped := s.dropped + {t}) else s'
  }

  function Next(s: State, a: Action, isOneshot: Timer -> bool): State {
    match a
    case AddTimer(t, d) => AddTimerStep(s, t, d)
    case Cancel(t) => if t in s.accepted then s.(cancelled := s.cancelled + {t}) else s
    case RequestRemoval(t) => if t in s.cancelled then RemovalStep(s, t) else s
    case Wake => if s.place.Waiting? then WakeStep(s) else s
    case ProcessRequest => if s.place.Working? && s.place.batch != [] then RequestStep(s) else s
    case Visit(t) => if s.place == Working([]) && t in s.internal then VisitStep(s, t, isOneshot) else s
    case EndPass => if s.place == Working([]) then s.(place := Waiting) else s
    case Shutdown =>
      if s.abort then s else if !s.joinable then s.(abort := true) else s.(abort := true, queue := [])
  }

  function Run(s: State, actions: seq<Action>, isOneshot: Timer -> bool): State {
    if |actions| == 0 then s
    else Next(Run(s, actions[..|actions| - 1], isOneshot), actions[|actions| - 1], isOneshot)
  }

  // ---------- Invariants ----------

  function Pending(s: State): seq<Request> {
    (if s.place.Working? then s.place.batch else []) + s.queue
  }

  // The requests hold one that adds the timer, or one that removes it.
  predicate Mentions(requests: seq<Request>, add: bool, t: Timer) {
    exists i :: 0 <= i < |requests| && requests[i].Add? == add && requests[i].timer == t
  }

  predicate Asks(requests: seq<Request>, t: Timer) {
    Mentions(requests, true, t)
  }

  predicate OneWorker(s: State) {
    && s.live == (if s.place.Gone? then 0 else 1)
    && (!s.abort ==> (s.idle <==> s.place.Gone?))
    && (s.place.Gone? ==> s.internal == {})
    && (!s.place.Gone? ==> s.joinable)
  }

  predicate Justified(r: Request, s: State) {
    && r.timer in s.accepted
    && (r.Add? ==> r.timer !in s.internal && r.timer !in s.dropped)
    && (r.Remove? ==> r.timer in s.cancelled)
  }

  // No request for a timer comes before the request that adds it.
  predicate AddsFirst(requests: seq<Request>) {
    forall i, j :: 0 <= i < j < |requests| && requests[j].Add? ==> requests[i].timer != requests[j].timer
  }

  predicate RequestsOk(s: State) {
    AddsFirst(Pending(s)) && forall i :: 0 <= i < |Pending(s)| ==> Justified(Pending(s)[i], s)
  }

  // The worker's timers and the dropped ones are disjoint, and only one-shot or cancelled timers are dropped.
  predicate Partitioned(s: State, isOneshot: Timer -> bool) {
    && s.internal <= s.accepted && s.dropped <= s.accepted && s.internal !! s.dropped && s.cancelled <= s.accepted
    && (forall t :: t in s.dropped ==> isOneshot(t) || t in s.cancelled)
  }

  // While the queue is open, an accepted timer is queued, held by the worker, or dropped.
  predicate Kept(s: State) {
    !s.abort ==> forall t :: t in s.accepted ==> t in s.internal || t in s.dropped || Asks(Pending(s), t)
  }

  // While the queue is open, a removal that was requested is still to be handled or was carried out.
  predicate Handled(s: State) {
    !s.abort ==> forall t :: t in s.unwanted ==> t in s.dropped || Mentions(Pending(s), false, t)
  }

  ghost predicate NoAddWhileIdle(s: State) {
    !s.abort && s.idle ==> forall t :: !Asks(s.queue, t)
  }

  predicate Logged(s: State, isOneshot: Timer -> bool) {
    && (forall i :: 0 <= i < |s.firings| ==> s.firings[i] in s.accepted)
    && (forall i :: 0 <= i < |s.firings| && isOneshot(s.firings[i]) ==> s.firings[i] in s.dropped)
    && (forall i, j :: 0 <= i < j < |s.firings| && isOneshot(s.firings[i]) ==> s.firings[i] != s.firings[j])
  }

  ghost predicate Inv(s: State, isOneshot: Timer -> bool) {
    && OneWorker(s) && RequestsOk(s) && Partitioned(s, isOneshot)
    && Kept(s) && Handled(s) && NoAddWhileIdle(s) && Logged(s, isOneshot)
  }

  lemma {:induction false} MentionsAppend(requests: seq<Request>, r: Request, add: bool, t: Timer)
    ensures Mentions(requests + [r], add, t) <==> Mentions(requests, add, t) || (r.Add? == add && r.timer == t)
  {
    var after := requests + [r];
    assert after[|requests|] == r;
    if Mentions(requests, add, t) {
      var i :| 0 <= i < |requests| && requests[i].Add? == add && requests[i].timer == t;
      assert after[i] == requests[i];
    }
  }

  lemma {:induction false} MentionsTail(requests: seq<Request>, add: bool, t: Timer)
    requires |requests| > 0
    ensures Mentions(requests, add, t) <==>
            Mentions(requests[1..], add, t) || (requests[0].Add? == add && requests[0].timer == t)
  {
    var tail := requests[1..];
    if Mentions(requests, add, t) {
      var i :| 0 <= i < |requests| && requests[i].Add? == add && requests[i].timer == t;
      assert i > 0 ==> tail[i - 1] == requests[i];
    }
    if Mentions(tail, add, t) {
      var i :| 0 <= i < |tail| && tail[i].Add? == add && tail[i].timer == t;
      assert requests[i + 1] == tail[i];
    }
  }

  // A request at the end: `s'` has the timers of `s`, and possibly a newly accepted one.
  lemma {:induction false} AppendKeepsRequests(s: State, s': State, r: Request)
    requires RequestsOk(s) && Pending(s') == Pending(s) + [r]
    requires s'.internal <= s.internal && s'.dropped == s.dropped
    requires s.cancelled == s'.cancelled && s.accepted <= s'.accepted
    requires Justified(r, s') && (r.Add? ==> r.timer !in s.accepted)
    ensures RequestsOk(s')
  {
    forall i | 0 <= i < |Pending(s')| ensures Justified(Pending(s')[i], s') {
      if i < |Pending(s)| { assert Justified(Pending(s)[i], s) && Pending(s')[i] == Pending(s)[i]; }
    }
    forall i, j | 0 <= i < j < |Pending(s')| && Pending(s')[j].Add?
      ensures Pending(s')[i].timer != Pending(s')[j].timer
    {
      assert Pending(s')[i] == Pending(s)[i] && Justified(Pending(s)[i], s);
    }
  }

  lemma {:induction false} AddKeepsInv(s: State, t: Timer, d: int, isOneshot: Timer -> bool)
    requires Inv(s, isOneshot)
    ensures Inv(AddTimerStep(s, t, d), isOneshot)
  {
    var s' := AddTimerStep(s, t, d);
    if !s.abort && t !in s.accepted {
      var r := TimerQueue.Add(t, d);
      assert Pending(s') == Pending(s) + [r];
      AppendKeepsRequests(s, s', r);
      forall u ensures Mentions(Pending(s'), true, u) <==> Mentions(Pending(s), true, u) || u == t {
        MentionsAppend(Pending(s), r, true, u);
      }
      forall u ensures Mentions(Pending(s'), false, u) <==> Mentions(Pending(s), false, u) {
        MentionsAppend(Pending(s), r, false, u);
      }
    }
  }

  lemma {:induction false} RemovalKeepsInv(s: State, t: Timer, isOneshot: Timer -> bool)
    requires Inv(s, isOneshot) && t in s.cancelled
    ensures Inv(RemovalStep(s, t), isOneshot)
  {
    var r := TimerQueue.Remove(t);
    var s' := RemovalStep(s, t);
    assert Pending(s') == Pending(s) + [r];
    AppendKeepsRequests(s, s', r);
    forall u ensures Mentions(Pending(s'), true, u) <==> Mentions(Pending(s), true, u) {
      MentionsAppend(Pending(s), r, true, u);
    }
    forall u ensures Mentions(Pending(s'), false, u) <==> Mentions(Pending(s), false, u) || u == t {
      MentionsAppend(Pending(s), r, false, u);
    }
    forall u ensures Asks(s'.queue, u) <==> Asks(s.queue, u) { MentionsAppend(s.queue, r, true, u); }
  }

  lemma {:induction false} WakeKeepsInv(s: State, isOneshot: Timer -> bool)
    requires Inv(s, isOneshot) && s.place.Waiting?
    ensures Inv(WakeStep(s), isOneshot)
  {
    var s' := WakeStep(s);
    assert Pending(s') == Pending(s);
    forall i | 0 <= i < |Pending(s')| ensures Justified(Pending(s')[i], s') { assert Justified(Pending(s)[i], s); }
  }

  lemma {:induction false} TailKeepsRequests(s: State)
    requires RequestsOk(s) && s.place.Working? && s.place.batch != []
    ensures Pending(RequestStep(s)) == Pending(s)[1..] && RequestsOk(RequestStep(s))
  {
    var s' := RequestStep(s);
    var before, after := Pending(s), Pending(s');
    assert after == before[1..] && s.place.batch[0] == before[0];
    forall i | 0 <= i < |after| ensures Justified(after[i], s') {
      assert after[i] == before[i + 1] && Justified(before[i + 1], s);
      assert before[i + 1].Add? ==> before[0].timer != before[i + 1].timer;
    }
  }

  lemma {:induction false} RequestKeepsInv(s: State, isOneshot: Timer -> bool)
    requires Inv(s, isOneshot) && s.place.Working? && s.place.batch != []
    ensures Inv(RequestStep(s), isOneshot)
  {
    TailKeepsRequests(s);
    assert s.place.batch[0] == Pending(s)[0] && Justified(Pending(s)[0], s);
    forall add, u ensures Mentions(Pending(s), add, u) <==>
        Mentions(Pending(s)[1..], add, u) || (Pending(s)[0].Add? == add && Pending(s)[0].timer == u) {
      MentionsTail(Pending(s), add, u);
    }
  }

  lemma {:induction false} VisitKeepsInv(s: State, t: Timer, isOneshot: Timer -> bool)
    requires Inv(s, isOneshot) && s.place == Working([]) && t in s.internal
    ensures Inv(VisitStep(s, t, isOneshot), isOneshot)
  {
    var s' := VisitStep(s, t, isOneshot);
    assert Pending(s') == Pending(s);
    forall i | 0 <= i < |Pending(s')| ensures Justified(Pending(s')[i], s') { assert Justified(Pending(s)[i], s); }
    forall i | 0 <= i < |s'.firings| ensures s'.firings[i] == if i < |s.firings| then s.firings[i] else t { }
  }

  lemma {:induction false} CancelKeepsInv(s: State, t: Timer, isOneshot: Timer -> bool)
    requires Inv(s, isOneshot) && t in s.accepted
    ensures Inv(s.(cancelled := s.cancelled + {t}), isOneshot)
  {
    var s' := s.(cancelled := s.cancelled + {t});
    assert Pending(s') == Pending(s);
    forall i | 0 <= i < |Pending(s')| ensures Justified(Pending(s')[i], s') { assert Justified(Pending(s)[i], s); }
  }

  lemma {:induction false} EndPassKeepsInv(s: State, isOneshot: Timer -> bool)
    requires Inv(s, isOneshot) && s.place == Working([])
    ensures Inv(s.(place := Waiting), isOneshot)
  {
    var s' := s.(place := Waiting);
    assert Pending(s') == Pending(s);
    forall i | 0 <= i < |Pending(s')| ensures Justified(Pending(s')[i], s') { assert Justified(Pending(s)[i], s); }
  }

  lemma {:induction false} ShutdownKeepsInv(s: State, isOneshot: Timer -> bool)
    requires Inv(s, isOneshot)
    ensures Inv(Next(s, Shutdown, isOneshot), isOneshot)
  {
    var s' := Next(s, Shutdown, isOneshot);
    forall i | 0 <= i < |Pending(s')| ensures Pending(s')[i] == Pending(s)[i] && Justified(Pending(s')[i], s') {
      assert Justified(Pending(s)[i], s);
    }
  }

  lemma {:induction false} NextKeepsInv(s: State, a: Action, isOneshot: Timer -> bool)
    requires Inv(s, isOneshot)
    ensures Inv(Next(s, a, isOneshot), isOneshot)
  {
    match a
    case AddTimer(t, d) => AddKeepsInv(s, t, d, isOneshot);
    case Cancel(t) => if t in s.accepted { CancelKeepsInv(s, t, isOneshot); }
    case RequestRemoval(t) => if t in s.cancelled { RemovalKeepsInv(s, t, isOneshot); }
    case Wake => if s.place.Waiting? { WakeKeepsInv(s, isOneshot); }
    case ProcessRequest => if s.place.Working? && s.place.batch != [] { RequestKeepsInv(s, isOneshot); }
    case Visit(t) => if s.place == Working([]) && t in s.internal { VisitKeepsInv(s, t, isOneshot); }
    case EndPass => if s.place == Working([]) { EndPassKeepsInv(s, isOneshot); }
    case Shutdown => ShutdownKeepsInv(s, isOneshot);
  }

  lemma {:induction false} RunKeepsInv(actions: seq<Action>, isOneshot: Timer -> bool)
    ensures Inv(Run(Initial(), actions, isOneshot), isOneshot)
  {
    if |actions| > 0 {
      RunKeepsInv(actions[..|actions| - 1], isOneshot);
      NextKeepsInv(Run(Initial(), actions[..|actions| - 1], isOneshot), actions[|actions| - 1], isOneshot);
    }
  }

  // ---------- Theorems over all runs ----------

  // The worker's retirement loses no timer: as long as the queue is open, an accepted timer that is periodic and
  // not cancelled is waiting in the queue or with the worker, and a worker is there to handle it.
  lemma {:induction false} NoTimerIsStranded(actions: seq<Action>, isOneshot: Timer -> bool, t: Timer)
    requires var s := Run(Initial(), actions, isOneshot); !s.abort && t in s.accepted
    ensures var s := Run(Initial(), actions, isOneshot);
      && (t in s.internal || t in s.dropped || Asks(Pending(s), t))
      && (t in s.dropped ==> isOneshot(t) || t in s.cancelled)
      && (t !in s.dropped ==> s.live == 1 && !s.place.Gone?)
  {
    RunKeepsInv(actions, isOneshot);
    var s := Run(Initial(), actions, isOneshot);
    assert s.place.Gone? ==> Pending(s) == s.queue;
  }

  // A requested removal is waiting to be handled, or the timer is out and will not come back.
  lemma {:induction false} RemovalIsHandled(actions: seq<Action>, isOneshot: Timer -> bool, t: Timer)
    requires var s := Run(Initial(), actions, isOneshot); !s.abort && t in s.unwanted
    ensures var s := Run(Initial(), actions, isOneshot);
      && (Mentions(Pending(s), false, t) || t in s.dropped)
      && (t in s.dropped ==> t !in s.internal && !Asks(Pending(s), t))
  {
    RunKeepsInv(actions, isOneshot);
    var s := Run(Initial(), actions, isOneshot);
    forall i | 0 <= i < |Pending(s)| ensures Justified(Pending(s)[i], s) { }
  }

  // There is never more than one worker in its loop, and none is idle while an open queue holds an addition.
  lemma {:induction false} AtMostOneWorker(actions: seq<Action>, isOneshot: Timer -> bool)
    ensures var s := Run(Initial(), actions, isOneshot);
      && s.live <= 1
      && (!s.abort ==> (s.idle <==> s.live == 0))
      && (!s.abort && s.idle ==> s.internal == {} && forall t :: !Asks(s.queue, t))
  {
    RunKeepsInv(actions, isOneshot);
  }

  lemma {:induction false} RequestedKeys(deadlines: Deadlines, requests: seq<Request>, t: Timer)
    requires t in TimerQueue.AfterRequests(deadlines, requests)
    ensures t in deadlines || Asks(requests, t)
  {
    if |requests| > 0 {
      var n := |requests| - 1;
      assert requests == requests[..n] + [requests[n]];
      MentionsAppend(requests[..n], requests[n], true, t);
      if t in TimerQueue.AfterRequests(deadlines, requests[..n]) {
        RequestedKeys(deadlines, requests[..n], t);
      }
    }
  }

  // What process_request_queue asserts: an added timer is not in the map yet, and a timer to be removed is in
  // it, or was one-shot or cancelled.
  lemma {:induction false} BatchesAreInOrder(actions: seq<Action>, isOneshot: Timer -> bool, deadlines: Deadlines)
    requires var s := Run(Initial(), actions, isOneshot); s.place.Working? && deadlines.Keys == s.internal
    ensures var s := Run(Initial(), actions, isOneshot);
      && TimerQueue.AddsAreNew(deadlines, s.place.batch)
      && (forall i :: 0 <= i < |s.place.batch| && s.place.batch[i].Remove? ==> s.place.batch[i].timer in s.cancelled)
  {
    RunKeepsInv(actions, isOneshot);
    var s := Run(Initial(), actions, isOneshot);
    var batch := s.place.batch;
    forall i | 0 <= i < |batch|
      ensures batch[i].Remove? ==> batch[i].timer in s.cancelled
      ensures batch[i].Add? ==> batch[i].timer !in TimerQueue.AfterRequests(deadlines, batch[..i])
    {
      assert Pending(s)[i] == batch[i] && Justified(Pending(s)[i], s);
      var earlier := batch[..i];
      forall j | 0 <= j < i ensures batch[i].Add? ==> earlier[j].timer != batch[i].timer {
        assert Pending(s)[j] == earlier[j];
      }
      if batch[i].timer in TimerQueue.AfterRequests(deadlines, earlier) {
        RequestedKeys(deadlines, earlier, batch[i].timer);
      }
    }
  }

  // ---------- The worker's steps refine process_timers ----------

  lemma {:induction false} AfterFirst(deadlines: Deadlines, requests: seq<Request>)
    requires |requests| > 0
    ensures TimerQueue.AfterRequests(deadlines, requests) ==
            TimerQueue.AfterRequests(TimerQueue.AfterRequests(deadlines, requests[..1]), requests[1..])
  {
    if |requests| == 1 {
      assert requests[..1] == requests;
    } else {
      var n := |requests| - 1;
      AfterFirst(deadlines, requests[..n]);
      assert requests[..n][..1] == requests[..1] && requests[..n][1..] == requests[1..][..n - 1];
    }
  }

  lemma {:induction false} AfterOne(deadlines: Deadlines, requests: seq<Request>)
    requires |requests| > 0
    ensures TimerQueue.AfterRequests(deadlines, requests[..1]).Keys ==
            match requests[0]
            case Add(t, _) => deadlines.Keys + {t}
            case Remove(t) => deadlines.Keys - {t}
  {
    assert requests[..1][..0] == [];
  }

  function ProcessAll(k: nat): seq<Action> {
    seq(k, i => ProcessRequest)
  }

  // Handling a batch step by step leaves the worker with the timers that process_request_queue leaves.
  lemma {:induction false} BatchRefinesRequests(s: State, isOneshot: Timer -> bool, deadlines: Deadlines)
    requires s.place.Working? && deadlines.Keys == s.internal
    ensures var t := Run(s, ProcessAll(|s.place.batch|), isOneshot);
      t.place == Working([]) && t.internal == TimerQueue.AfterRequests(deadlines, s.place.batch).Keys
    decreases |s.place.batch|
  {
    var batch := s.place.batch;
    if batch != [] {
      AfterFirst(deadlines, batch);
      AfterOne(deadlines, batch);
      BatchRefinesRequests(RequestStep(s), isOneshot, TimerQueue.AfterRequests(deadlines, batch[..1]));
      RunCons(s, ProcessRequest, ProcessAll(|batch| - 1), isOneshot);
      assert [ProcessRequest] + ProcessAll(|batch| - 1) == ProcessAll(|batch|);
    }
  }

  // A visit of the worker is a visit of the pass: the same timers stay, and the same timer is posted.
  lemma {:induction false} VisitRefinesPass(s: State, isOneshot: Timer -> bool, deadlines: Deadlines,
                                            v: TimerPass.Visit)
    requires s.place == Working([]) && v.timer in s.internal && deadlines.Keys == s.internal
    requires v.cancelled <==> v.timer in s.cancelled
    ensures var t := Next(s, Action.Visit(v.timer), isOneshot);
      && t.internal == Step(deadlines, v, isOneshot).Keys
      && t.firings == s.firings + Fired([v])
      && (t.dropped == if v.timer in t.internal then s.dropped else s.dropped + {v.timer})
  {
    assert [v][..0] == [];
    assert Fired([v]) == Fired([]) + if v.cancelled then [] else [v.timer];
  }

  // ---------- Requests always reach the worker, and it can always end ----------

  lemma {:induction false} RunLast(s: State, front: seq<Action>, a: Action, isOneshot: Timer -> bool)
    ensures Run(s, front + [a], isOneshot) == Next(Run(s, front, isOneshot), a, isOneshot)
  {
    assert (front + [a])[..|front|] == front;
  }

  lemma {:induction false} RunCons(s: State, a: Action, rest: seq<Action>, isOneshot: Timer -> bool)
    ensures Run(s, [a] + rest, isOneshot) == Run(Next(s, a, isOneshot), rest, isOneshot)
  {
    if rest == [] {
      assert [a] + rest == [] + [a];
      RunLast(s, [], a, isOneshot);
    } else {
      var front, last := rest[..|rest| - 1], rest[|rest| - 1];
      assert rest == front + [last];
      assert [a] + rest == ([a] + front) + [last];
      RunCons(s, a, front, isOneshot);
      RunLast(s, [a] + front, last, isOneshot);
      RunLast(Next(s, a, isOneshot), front, last, isOneshot);
    }
  }

  function Effort(s: State): nat {
    4 * |s.queue| + if s.place.Working? then 2 * |s.place.batch| + 1 else 0
  }

  lemma {:induction false} DrainProgress(s: State, isOneshot: Timer -> bool) returns (a: Action)
    requires Inv(s, isOneshot) && !s.abort && !s.place.Gone? && !(s.place.Waiting? && s.queue == [])
    ensures var t := Next(s, a, isOneshot);
      Effort(t) < Effort(s) && !t.abort && !t.place.Gone? && t.accepted == s.accepted
  {
    a := if s.place.Waiting? then Wake else if s.place.batch != [] then ProcessRequest else EndPass;
  }

  lemma {:induction false} CanDrain(s: State, isOneshot: Timer -> bool) returns (more: seq<Action>)
    requires Inv(s, isOneshot) && !s.abort && !s.place.Gone?
    ensures var t := Run(s, more, isOneshot);
      Inv(t, isOneshot) && !t.abort && t.place.Waiting? && t.queue == [] && t.accepted == s.accepted
    decreases Effort(s)
  {
    if s.place.Waiting? && s.queue == [] {
      more := [];
    } else {
      var a := DrainProgress(s, isOneshot);
      NextKeepsInv(s, a, isOneshot);
      var rest := CanDrain(Next(s, a, isOneshot), isOneshot);
      RunCons(s, a, rest, isOneshot);
      more := [a] + rest;
    }
  }

  // While the queue is open and has a worker, some schedule of the worker alone handles every request: each accepted
  // timer is then with the worker, or dropped.
  lemma {:induction false} EveryTimerReachesTheWorker(actions: seq<Action>, isOneshot: Timer -> bool)
    returns (more: seq<Action>)
    requires var s := Run(Initial(), actions, isOneshot); !s.abort && !s.idle
    ensures var t := Run(Run(Initial(), actions, isOneshot), more, isOneshot);
      && t.queue == [] && t.accepted == Run(Initial(), actions, isOneshot).accepted
      && forall u :: u in t.accepted ==> u in t.internal || u in t.dropped
  {
    RunKeepsInv(actions, isOneshot);
    more := CanDrain(Run(Initial(), actions, isOneshot), isOneshot);
    var t := Run(Run(Initial(), actions, isOneshot), more, isOneshot);
    assert Pending(t) == [];
  }

  // A new timer is accepted until shutdown; it is then queued behind all other requests, and a worker is there for it.
  lemma {:induction false} AddOutcome(actions: seq<Action>, isOneshot: Timer -> bool, t: Timer, d: int)
    requires t !in Run(Initial(), actions, isOneshot).accepted
    ensures var s := Run(Initial(), actions, isOneshot);
      var u := Next(s, AddTimer(t, d), isOneshot);
      if s.abort then u == s
      else
        && u.queue == s.queue + [TimerQueue.Add(t, d)] && u.accepted == s.accepted + {t}
        && u.live == 1 && !u.idle && !u.place.Gone? && u.internal == s.internal
  {
    RunKeepsInv(actions, isOneshot);
    NextKeepsInv(Run(Initial(), actions, isOneshot), AddTimer(t, d), isOneshot);
  }

  // Cancelling a timer marks it before its removal is queued.
  lemma {:induction false} CancelOutcome(actions: seq<Action>, isOneshot: Timer -> bool, t: Timer)
    requires t in Run(Initial(), actions, isOneshot).accepted
    ensures var s := Run(Initial(), actions, isOneshot);
      var u := Next(s, Cancel(t), isOneshot);
      var v := Next(u, RequestRemoval(t), isOneshot);
      && t in u.cancelled && u.queue == s.queue
      && t in v.unwanted && v.queue == s.queue + [TimerQueue.Remove(t)]
      && (t !in s.cancelled ==> Next(s, RequestRemoval(t), isOneshot) == s)
  {
  }

  // A worker without timers and requests retires when its wait ends; the next timer gives the queue a new worker.
  lemma {:induction false} RetirementOutcome(actions: seq<Action>, isOneshot: Timer -> bool)
    requires var s := Run(Initial(), actions, isOneshot); !s.abort && s.place.Waiting?
    ensures var s := Run(Initial(), actions, isOneshot);
      var u := Next(s, Wake, isOneshot);
      if s.internal == {} && s.queue == [] then u.idle && u.live == 0 && u.place.Gone?
      else u.place == Working(s.queue) && u.queue == [] && u.internal == s.internal
  {
    RunKeepsInv(actions, isOneshot);
  }

  // Before the first timer there is nothing to handle.
  predicate Unused(s: State) {
    !s.joinable ==> s.accepted == {} && s.cancelled == {} && s.queue == []
  }

  lemma {:induction false} UnusedStep(s: State, a: Action, isOneshot: Timer -> bool)
    requires Unused(s) && Inv(s, isOneshot)
    ensures Unused(Next(s, a, isOneshot))
  {
  }

  lemma {:induction false} RunKeepsUnused(actions: seq<Action>, isOneshot: Timer -> bool)
    ensures Unused(Run(Initial(), actions, isOneshot))
  {
    if |actions| > 0 {
      RunKeepsUnused(actions[..|actions| - 1], isOneshot);
      RunKeepsInv(actions[..|actions| - 1], isOneshot);
      UnusedStep(Run(Initial(), actions[..|actions| - 1], isOneshot), actions[|actions| - 1], isOneshot);
    }
  }

  // The first shutdown discards the requests that wait, and closes the queue; a later one does nothing.
  lemma {:induction false} ShutdownOutcome(actions: seq<Action>, isOneshot: Timer -> bool)
    ensures var s := Run(Initial(), actions, isOneshot);
      var t := Next(s, Shutdown, isOneshot);
      if s.abort then t == s else t.abort && t.queue == [] && t.place == s.place && t.internal == s.internal
  {
    RunKeepsUnused(actions, isOneshot);
  }

  function EndEffort(s: State): nat {
    (if s.abort then 0 else 1) +
    match s.place
    case Gone => 0
    case Waiting => 1
    case Working(batch) => |batch| + 2
  }

  lemma {:induction false} CanEnd(s: State, isOneshot: Timer -> bool) returns (more: seq<Action>)
    requires Inv(s, isOneshot)
    ensures var t := Run(s, more, isOneshot); t.abort && t.live == 0 && t.accepted == s.accepted
    decreases EndEffort(s)
  {
    if s.abort && s.place.Gone? {
      more := [];
    } else {
      var a := if !s.abort then Shutdown else if s.place.Waiting? then Wake
               else if s.place.batch != [] then ProcessRequest else EndPass;
      NextKeepsInv(s, a, isOneshot);
      assert EndEffort(Next(s, a, isOneshot)) < EndEffort(s);
      var rest := CanEnd(Next(s, a, isOneshot), isOneshot);
      RunCons(s, a, rest, isOneshot);
      more := [a] + rest;
    }
  }

  // From every reachable state shutdown can end the worker.
  lemma {:induction false} ShutdownIsAlwaysPossible(actions: seq<Action>, isOneshot: Timer -> bool)
    returns (more: seq<Action>)
    ensures var t := Run(Run(Initial(), actions, isOneshot), more, isOneshot); t.abort && t.live == 0
  {
    RunKeepsInv(actions, isOneshot);
    more := CanEnd(Run(Initial(), actions, isOneshot), isOneshot);
  }

  // A one-shot timer fires at most once in the life of the queue.
  lemma {:induction false} OneshotFiresOnce(actions: seq<Action>, isOneshot: Timer -> bool, i: nat, j: nat)
    requires i < j < |Run(Initial(), actions, isOneshot).firings|
    requires isOneshot(Run(Initial(), actions, isOneshot).firings[i])
    ensures var s := Run(Initial(), actions, isOneshot); s.firings[i] != s.firings[j]
  {
    RunKeepsInv(actions, isOneshot);
  }

  lemma {:induction false} DroppedDoesNotFire(s: State, a: Action, isOneshot: Timer -> bool, t: Timer)
    requires s.internal !! s.dropped && t in s.dropped
    ensures var s' := Next(s, a, isOneshot);
      t in s'.dropped && (s'.firings == s.firings || exists u :: u != t && s'.firings == s.firings + [u])
  {
    if a.Visit? && a.timer in s.internal { assert a.timer != t; }
  }

  // A timer that was removed, or found cancelled, does not fire any more.
  lemma {:induction false} DroppedFiresNoMore(s: State, actions: seq<Action>, isOneshot: Timer -> bool, t: Timer)
    requires Inv(s, isOneshot) && t in s.dropped
    ensures var s' := Run(s, actions, isOneshot);
      && Inv(s', isOneshot) && t in s'.dropped && s.firings <= s'.firings
      && forall i :: |s.firings| <= i < |s'.firings| ==> s'.firings[i] != t
  {
    if |actions| > 0 {
      var n := |actions| - 1;
      DroppedFiresNoMore(s, actions[..n], isOneshot, t);
      var middle := Run(s, actions[..n], isOneshot);
      NextKeepsInv(middle, actions[n], isOneshot);
      DroppedDoesNotFire(middle, actions[n], isOneshot, t);
    }
  }

  predicate NoMore(s: State, s': State) {
    && s'.abort && s'.accepted == s.accepted && s'.live <= s.live && s'.idle == s.idle
    && (s.place.Gone? ==> s'.place.Gone? && s'.firings == s.firings)
    && (!s.place.Working? ==> !s'.place.Working?)
  }

  lemma {:induction false} ClosedStep(s: State, a: Action, isOneshot: Timer -> bool)
    requires s.abort
    ensures NoMore(s, Next(s, a, isOneshot))
  { }

  // After shutdown no timer is accepted, and no further requests reach the worker.
  lemma {:induction false} ShutdownIsFinal(s: State, actions: seq<Action>, isOneshot: Timer -> bool)
    requires s.abort
    ensures NoMore(s, Run(s, actions, isOneshot))
  {
    if |actions| > 0 {
      var n := |actions| - 1;
      ShutdownIsFinal(s, actions[..n], isOneshot);
      ClosedStep(Run(s, actions[..n], isOneshot), actions[n], isOneshot);
    }
  }
}
