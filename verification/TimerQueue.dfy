/**
  `timer_queue_internal`: the timers of the queue's worker thread, ordered by deadline in a multiset,
  with a map from each timer to its place in the multiset. Times are ticks of the clock.
 */
module TimerQueue {

  import opened TimerPass

  datatype Request = Add(timer: Timer, deadline: int) | Remove(timer: Timer)

  // A node of the multiset; the handle is what an iterator to it denotes.
  datatype Node = Node(handle: nat, timer: Timer)

  // ---------- The ordered multiset ----------

  predicate Known(nodes: seq<Node>, deadlines: Deadlines) {
    forall i :: 0 <= i < |nodes| ==> nodes[i].timer in deadlines
  }

  predicate Sorted(nodes: seq<Node>, deadlines: Deadlines)
    requires Known(nodes, deadlines)
  {
    forall i, j :: 0 <= i < j < |nodes| ==> deadlines[nodes[i].timer] <= deadlines[nodes[j].timer]
  }

  predicate DistinctTimers(nodes: seq<Node>) {
    forall i, j :: 0 <= i < j < |nodes| ==> nodes[i].timer != nodes[j].timer
  }

  // Where multiset::insert puts an element: behind all elements that are not greater.
  function UpperBound(nodes: seq<Node>, deadlines: Deadlines, d: int): (k: nat)
    requires Known(nodes, deadlines)
    ensures k <= |nodes|
    ensures forall i :: 0 <= i < k ==> deadlines[nodes[i].timer] <= d
    ensures k < |nodes| ==> deadlines[nodes[k].timer] > d
  {
    if |nodes| == 0 || deadlines[nodes[0].timer] > d then 0
    else 1 + UpperBound(nodes[1..], deadlines, d)
  }

  function Insert(nodes: seq<Node>, deadlines: Deadlines, node: Node, d: int): seq<Node>
    requires Known(nodes, deadlines)
  {
    var k := UpperBound(nodes, deadlines, d);
    nodes[..k] + [node] + nodes[k..]
  }

  predicate Ordered(nodes: seq<Node>, deadlines: Deadlines) {
    Known(nodes, deadlines) && Sorted(nodes, deadlines) && DistinctTimers(nodes)
  }

  lemma {:induction false} InsertedAt(nodes: seq<Node>, deadlines: Deadlines, node: Node, d: int, i: nat)
    requires Known(nodes, deadlines) && i <= |nodes|
    ensures var k := UpperBound(nodes, deadlines, d);
            |Insert(nodes, deadlines, node, d)| == |nodes| + 1
            && Insert(nodes, deadlines, node, d)[i] == if i < k then nodes[i] else if i == k then node else nodes[i - 1]
  {
  }

  lemma {:induction false} InsertKeepsPair(nodes: seq<Node>, deadlines: Deadlines, node: Node, d: int, i: nat, j: nat)
    requires Ordered(nodes, deadlines) && i < j <= |nodes|
    requires forall x :: 0 <= x < |nodes| ==> nodes[x].timer != node.timer
    ensures var after, deadlines' := Insert(nodes, deadlines, node, d), deadlines[node.timer := d];
            && |after| == |nodes| + 1 && after[i].timer in deadlines' && after[j].timer in deadlines'
            && deadlines'[after[i].timer] <= deadlines'[after[j].timer] && after[i].timer != after[j].timer
  {
    var k := UpperBound(nodes, deadlines, d);
    InsertedAt(nodes, deadlines, node, d, i);
    InsertedAt(nodes, deadlines, node, d, j);
    if k < j { assert j > k + 1 ==> deadlines[nodes[k].timer] <= deadlines[nodes[j - 1].timer]; }
  }

  lemma {:induction false} InsertKeepsOrder(nodes: seq<Node>, deadlines: Deadlines, node: Node, d: int)
    requires Ordered(nodes, deadlines)
    requires forall i :: 0 <= i < |nodes| ==> nodes[i].timer != node.timer
    ensures Ordered(Insert(nodes, deadlines, node, d), deadlines[node.timer := d])
  {
    var after, deadlines' := Insert(nodes, deadlines, node, d), deadlines[node.timer := d];
    forall i | 0 <= i < |after| ensures after[i].timer in deadlines' { InsertedAt(nodes, deadlines, node, d, i); }
    forall i, j | 0 <= i < j < |after|
      ensures deadlines'[after[i].timer] <= deadlines'[after[j].timer] && after[i].timer != after[j].timer
    {
      InsertKeepsPair(nodes, deadlines, node, d, i, j);
    }
  }

  function Timers(nodes: seq<Node>): set<Timer> { set n | n in nodes :: n.timer }

  lemma {:induction false} InsertTimers(nodes: seq<Node>, deadlines: Deadlines, node: Node, d: int)
    requires Known(nodes, deadlines)
    ensures Timers(Insert(nodes, deadlines, node, d)) == Timers(nodes) + {node.timer}
  {
    var k := UpperBound(nodes, deadlines, d);
    var after := Insert(nodes, deadlines, node, d);
    assert nodes == nodes[..k] + nodes[k..];
    forall n ensures n in after <==> n in nodes || n == node { }
    assert node in after;
  }

  function Erase(nodes: seq<Node>, k: nat): seq<Node>
    requires k < |nodes|
  {
    nodes[..k] + nodes[k + 1..]
  }

  lemma {:induction false} EraseKeepsOrder(nodes: seq<Node>, deadlines: Deadlines, k: nat)
    requires Ordered(nodes, deadlines) && k < |nodes|
    ensures Ordered(Erase(nodes, k), deadlines - {nodes[k].timer})
  {
    var after := Erase(nodes, k);
    forall i | 0 <= i < |after|
      ensures after[i] == nodes[if i < k then i else i + 1] && after[i].timer != nodes[k].timer
    { }
  }

  lemma {:induction false} EraseTimers(nodes: seq<Node>, k: nat)
    requires DistinctTimers(nodes) && k < |nodes|
    ensures Timers(Erase(nodes, k)) == Timers(nodes) - {nodes[k].timer}
  {
    var after := Erase(nodes, k);
    forall i | 0 <= i < |after| ensures after[i] == nodes[if i < k then i else i + 1] { }
    forall n | n in nodes && n.timer != nodes[k].timer ensures n in after {
      var i :| 0 <= i < |nodes| && nodes[i] == n;
      assert after[if i < k then i else i - 1] == n;
    }
    forall n | n in after ensures n in nodes && n.timer != nodes[k].timer {
      var i :| 0 <= i < |after| && after[i] == n;
    }
  }

  // ---------- The iterator map ----------

  predicate DistinctHandles(nodes: seq<Node>) {
    forall i, j :: 0 <= i < j < |nodes| ==> nodes[i].handle != nodes[j].handle
  }

  // Every node is where the map says.
  predicate Placed(nodes: seq<Node>, mapper: map<Timer, nat>, bound: nat) {
    forall i :: 0 <= i < |nodes| ==>
      nodes[i].timer in mapper && mapper[nodes[i].timer] == nodes[i].handle && nodes[i].handle < bound
  }

  // The map is a bijection between the timers and the nodes of the multiset.
  predicate Mapped(nodes: seq<Node>, mapper: map<Timer, nat>, bound: nat) {
    Placed(nodes, mapper, bound) && DistinctHandles(nodes) && mapper.Keys == Timers(nodes)
  }

  lemma {:induction false} InsertKeepsPlaces(nodes: seq<Node>, mapper: map<Timer, nat>, bound: nat,
                                             deadlines: Deadlines, t: Timer, d: int)
    requires Known(nodes, deadlines) && Placed(nodes, mapper, bound) && t !in mapper
    ensures Placed(Insert(nodes, deadlines, Node(bound, t), d), mapper[t := bound], bound + 1)
  {
    var k, node := UpperBound(nodes, deadlines, d), Node(bound, t);
    var after, mapper' := Insert(nodes, deadlines, node, d), mapper[t := bound];
    forall i | 0 <= i < |after|
      ensures after[i].timer in mapper' && mapper'[after[i].timer] == after[i].handle && after[i].handle < bound + 1
    {
      assert after[i] == if i < k then nodes[i] else if i == k then node else nodes[i - 1];
    }
  }

  lemma {:induction false} InsertKeepsHandles(nodes: seq<Node>, mapper: map<Timer, nat>, bound: nat,
                                              deadlines: Deadlines, t: Timer, d: int)
    requires Known(nodes, deadlines) && Placed(nodes, mapper, bound) && DistinctHandles(nodes)
    ensures DistinctHandles(Insert(nodes, deadlines, Node(bound, t), d))
  {
    var k, node := UpperBound(nodes, deadlines, d), Node(bound, t);
    var after := Insert(nodes, deadlines, node, d);
    forall i, j | 0 <= i < j < |after| ensures after[i].handle != after[j].handle {
      assert after[i] == if i < k then nodes[i] else if i == k then node else nodes[i - 1];
      assert after[j] == if j < k then nodes[j] else if j == k then node else nodes[j - 1];
    }
  }

  lemma {:induction false} InsertKeepsMap(nodes: seq<Node>, mapper: map<Timer, nat>, bound: nat,
                                          deadlines: Deadlines, t: Timer, d: int)
    requires Known(nodes, deadlines) && Mapped(nodes, mapper, bound) && t !in mapper
    ensures Mapped(Insert(nodes, deadlines, Node(bound, t), d), mapper[t := bound], bound + 1)
  {
    InsertKeepsPlaces(nodes, mapper, bound, deadlines, t, d);
    InsertKeepsHandles(nodes, mapper, bound, deadlines, t, d);
    InsertTimers(nodes, deadlines, Node(bound, t), d);
  }

  lemma {:induction false} EraseKeepsMap(nodes: seq<Node>, mapper: map<Timer, nat>, bound: nat, k: nat)
    requires DistinctTimers(nodes) && Mapped(nodes, mapper, bound) && k < |nodes|
    ensures Mapped(Erase(nodes, k), mapper - {nodes[k].timer}, bound)
  {
    var after := Erase(nodes, k);
    forall i | 0 <= i < |after|
      ensures after[i] == nodes[if i < k then i else i + 1] && after[i].timer != nodes[k].timer
    { }
    EraseTimers(nodes, k);
  }

  // The multiset is ordered and in bijection with the iterator map.
  predicate Index(nodes: seq<Node>, mapper: map<Timer, nat>, deadlines: Deadlines, bound: nat) {
    Ordered(nodes, deadlines) && Mapped(nodes, mapper, bound) && mapper.Keys == deadlines.Keys
  }

  lemma {:induction false} IndexAdd(nodes: seq<Node>, mapper: map<Timer, nat>, deadlines: Deadlines, bound: nat,
                                    t: Timer, d: int)
    requires Index(nodes, mapper, deadlines, bound) && t !in deadlines
    ensures Index(Insert(nodes, deadlines, Node(bound, t), d), mapper[t := bound], deadlines[t := d], bound + 1)
  {
    InsertKeepsOrder(nodes, deadlines, Node(bound, t), d);
    InsertKeepsMap(nodes, mapper, bound, deadlines, t, d);
  }

  lemma {:induction false} IndexRemove(nodes: seq<Node>, mapper: map<Timer, nat>, deadlines: Deadlines, bound: nat,
                                       k: nat)
    requires Index(nodes, mapper, deadlines, bound) && k < |nodes|
    ensures Index(Erase(nodes, k), mapper - {nodes[k].timer}, deadlines - {nodes[k].timer}, bound)
  {
    EraseKeepsOrder(nodes, deadlines, k);
    EraseKeepsMap(nodes, mapper, bound, k);
  }

  // The place of the node that an iterator denotes.
  function Position(nodes: seq<Node>, handle: nat): (k: nat)
    ensures k <= |nodes| && (k < |nodes| ==> nodes[k].handle == handle)
    ensures forall i :: 0 <= i < k ==> nodes[i].handle != handle
  {
    if |nodes| == 0 || nodes[0].handle == handle then 0 else 1 + Position(nodes[1..], handle)
  }

  lemma {:induction false} IteratorDenotesNode(nodes: seq<Node>, mapper: map<Timer, nat>, bound: nat, t: Timer)
    requires Mapped(nodes, mapper, bound) && t in mapper
    ensures var k := Position(nodes, mapper[t]); k < |nodes| && nodes[k].timer == t
  {
    var i := PlaceOf(nodes, t);
    assert nodes[i].handle == mapper[t];
    var k := Position(nodes, mapper[t]);
    assert k == i;
  }

  lemma {:induction false} PlaceOf(nodes: seq<Node>, t: Timer) returns (i: nat)
    requires t in Timers(nodes)
    ensures i < |nodes| && nodes[i].timer == t
  {
    var n :| n in nodes && n.timer == t;
    i :| 0 <= i < |nodes| && nodes[i] == n;
  }

  // Erasing through the iterator map removes exactly the timer asked for.
  lemma {:induction false} IndexErase(nodes: seq<Node>, mapper: map<Timer, nat>, deadlines: Deadlines, bound: nat,
                                      t: Timer)
    requires Index(nodes, mapper, deadlines, bound) && t in mapper
    ensures var k := Position(nodes, mapper[t]);
      k < |nodes| && Index(Erase(nodes, k), mapper - {t}, deadlines - {t}, bound)
  {
    IteratorDenotesNode(nodes, mapper, bound, t);
    IndexRemove(nodes, mapper, deadlines, bound, Position(nodes, mapper[t]));
  }

  lemma {:induction false} Overwritten<T>(m: map<Timer, T>, t: Timer, v: T)
    ensures (m - {t})[t := v] == m[t := v]
  { }

  lemma {:induction false} Absent<T>(m: map<Timer, T>, t: Timer)
    requires t !in m
    ensures m - {t} == m
  { }

  // multiset::erase or multiset::extract, with the entry of the iterator map.
  method EraseAt(nodes: seq<Node>, mapper: map<Timer, nat>, deadlines: Deadlines, ghost bound: nat, k: nat)
    returns (nodes': seq<Node>, mapper': map<Timer, nat>, deadlines': Deadlines)
    requires Index(nodes, mapper, deadlines, bound) && k < |nodes|
    ensures Index(nodes', mapper', deadlines', bound) && deadlines' == deadlines - {nodes[k].timer}
  {
    IndexRemove(nodes, mapper, deadlines, bound, k);
    nodes', mapper', deadlines' := Erase(nodes, k), mapper - {nodes[k].timer}, deadlines - {nodes[k].timer};
  }

  // Extracting the first node, and inserting its timer again with a new deadline.
  lemma {:induction false} IndexReinsert(nodes: seq<Node>, mapper: map<Timer, nat>, deadlines: Deadlines, bound: nat,
                                         d: int)
    requires Index(nodes, mapper, deadlines, bound) && |nodes| > 0
    ensures var t := nodes[0].timer;
      && Known(Erase(nodes, 0), deadlines - {t})
      && Index(Insert(Erase(nodes, 0), deadlines - {t}, Node(bound, t), d), mapper[t := bound], deadlines[t := d],
               bound + 1)
  {
    var t := nodes[0].timer;
    IndexRemove(nodes, mapper, deadlines, bound, 0);
    IndexAdd(Erase(nodes, 0), mapper - {t}, deadlines - {t}, bound, t, d);
    Overwritten(mapper, t, bound);
    Overwritten(deadlines, t, d);
  }

  // ---------- Requests ----------

  // The timers, with their deadlines, after a batch of requests.
  function AfterRequests(deadlines: Deadlines, requests: seq<Request>): Deadlines {
    if |requests| == 0 then deadlines
    else
      var before := AfterRequests(deadlines, requests[..|requests| - 1]);
      match requests[|requests| - 1]
      case Add(t, d) => before[t := d]
      case Remove(t) => before - {t}
  }

  // A timer is added once: add_timer_internal asserts that it is not there yet.
  predicate AddsAreNew(deadlines: Deadlines, requests: seq<Request>) {
    forall i :: 0 <= i < |requests| && requests[i].Add? ==>
      requests[i].timer !in AfterRequests(deadlines, requests[..i])
  }

  predicate Mentions(requests: seq<Request>, t: Timer) {
    exists i :: 0 <= i < |requests| && requests[i].timer == t
  }

  lemma {:induction false} UnmentionedIsUntouched(deadlines: Deadlines, requests: seq<Request>, t: Timer)
    requires !Mentions(requests, t)
    ensures var after := AfterRequests(deadlines, requests);
            (t in after <==> t in deadlines) && (t in deadlines ==> after[t] == deadlines[t])
  {
    if |requests| > 0 {
      assert !Mentions(requests[..|requests| - 1], t);
      UnmentionedIsUntouched(deadlines, requests[..|requests| - 1], t);
    }
  }

  /** The last request for a timer decides: added with its own deadline, or removed. */
  lemma {:induction false} LastRequestDecides(deadlines: Deadlines, requests: seq<Request>, i: nat)
    requires i < |requests| && forall j :: i < j < |requests| ==> requests[j].timer != requests[i].timer
    ensures var after := AfterRequests(deadlines, requests);
            match requests[i]
            case Add(t, d) => t in after && after[t] == d
            case Remove(t) => t !in after
  {
    if i < |requests| - 1 {
      LastRequestDecides(deadlines, requests[..|requests| - 1], i);
    }
  }

  function Expired(deadlines: Deadlines, now: int): set<Timer> {
    set t | t in deadlines && deadlines[t] <= now
  }

  // The first node of the multiset holds an earliest timer.
  lemma {:induction false} FirstIsEarliest(nodes: seq<Node>, mapper: map<Timer, nat>, deadlines: Deadlines, bound: nat)
    requires Index(nodes, mapper, deadlines, bound) && |nodes| > 0
    ensures Earliest(deadlines, nodes[0].timer)
  {
    forall u | u in deadlines ensures deadlines[nodes[0].timer] <= deadlines[u] {
      var i := PlaceOf(nodes, u);
    }
  }

  lemma {:induction false} EmptyTogether(nodes: seq<Node>, mapper: map<Timer, nat>, deadlines: Deadlines, bound: nat)
    requires Index(nodes, mapper, deadlines, bound) && |nodes| == 0
    ensures mapper == map[] && deadlines == map[]
  {
    assert mapper.Keys == {};
  }

  lemma {:induction false} FirstIsDueFirst(nodes: seq<Node>, mapper: map<Timer, nat>, deadlines: Deadlines,
                                           bound: nat, now: int)
    requires Index(nodes, mapper, deadlines, bound)
    requires |nodes| > 0 && deadlines[nodes[0].timer] <= now
    ensures DueFirst(deadlines, nodes[0].timer, now)
  {
    FirstIsEarliest(nodes, mapper, deadlines, bound);
  }

  // When the first timer is not due, none is.
  lemma {:induction false} FirstDecides(nodes: seq<Node>, mapper: map<Timer, nat>, deadlines: Deadlines, bound: nat,
                                        now: int)
    requires Index(nodes, mapper, deadlines, bound)
    requires |nodes| > 0 ==> deadlines[nodes[0].timer] > now
    ensures NoneDue(deadlines, now)
  {
    if |nodes| == 0 {
      EmptyTogether(nodes, mapper, deadlines, bound);
    } else {
      FirstIsEarliest(nodes, mapper, deadlines, bound);
    }
  }

  lemma {:induction false} ReplayAppend(m: Deadlines, log: seq<Visit>, v: Visit, isOneshot: Timer -> bool, now: int)
    requires Legal(m, log, isOneshot, now) && DueFirst(Replay(m, log, isOneshot), v.timer, now)
    ensures Legal(m, log + [v], isOneshot, now)
    ensures Replay(m, log + [v], isOneshot) == Step(Replay(m, log, isOneshot), v, isOneshot)
    ensures Fired(log + [v]) == Fired(log) + if v.cancelled then [] else [v.timer]
  {
    var log' := log + [v];
    assert log'[..|log|] == log;
    forall i | 0 <= i < |log'| ensures DueFirst(Replay(m, log'[..i], isOneshot), log'[i].timer, now) {
      assert log'[..i] == log[..i];
      assert i == |log| ==> log[..i] == log;
    }
  }

  lemma {:induction false} ExpiredShrinks(m: Deadlines, v: Visit, isOneshot: Timer -> bool, now: int)
    requires v.timer in m && m[v.timer] <= now < NextDeadline(v)
    ensures Expired(Step(m, v, isOneshot), now) < Expired(m, now)
  {
    assert v.timer in Expired(m, now) && v.timer !in Expired(Step(m, v, isOneshot), now);
  }

  class Internal {
    const isOneshot: Timer -> bool
    var timers: seq<Node>         // m_timers
    var mapper: map<Timer, nat>   // m_iterator_mapper
    var deadlines: Deadlines      // m_deadline of the timers in the queue
    var nextHandle: nat
    var posted: seq<Timer>        // timers whose callable was posted to their executor, in order

    // The multiset and the iterator map are in bijection, and the multiset is ordered.
    ghost predicate Valid()
      reads this
    {
      Index(timers, mapper, deadlines, nextHandle)
    }

    constructor (isOneshot: Timer -> bool)
      ensures Valid() && timers == [] && posted == [] && this.isOneshot == isOneshot
    {
      this.isOneshot := isOneshot;
      timers, mapper, deadlines, nextHandle, posted := [], map[], map[], 0, [];
    }

    method AddTimer(t: Timer, d: int)
      requires Valid() && t !in deadlines
      modifies this
      ensures Valid() && deadlines == old(deadlines)[t := d] && posted == old(posted)
    {
      IndexAdd(timers, mapper, deadlines, nextHandle, t, d);
      timers := Insert(timers, deadlines, Node(nextHandle, t), d);
      mapper := mapper[t := nextHandle];
      deadlines := deadlines[t := d];
      nextHandle := nextHandle + 1;
    }

    method RemoveTimer(t: Timer)
      requires Valid()
      modifies this
      ensures Valid() && deadlines == old(deadlines) - {t} && posted == old(posted)
    {
      if t !in mapper {
        Absent(deadlines, t);
        return;
      }
      IteratorDenotesNode(timers, mapper, nextHandle, t);
      timers, mapper, deadlines := EraseAt(timers, mapper, deadlines, nextHandle, Position(timers, mapper[t]));
    }

    // A timer is added once, and may be asked to be removed at any time.
    method ProcessRequests(requests: seq<Request>)
      requires Valid() && AddsAreNew(deadlines, requests)
      modifies this
      ensures Valid() && deadlines == AfterRequests(old(deadlines), requests) && posted == old(posted)
    {
      assert requests[..0] == [];
      for i := 0 to |requests|
        invariant Valid() && deadlines == AfterRequests(old(deadlines), requests[..i]) && posted == old(posted)
      {
        assert requests[..i + 1][..i] == requests[..i];
        match requests[i] {
          case Add(t, d) => AddTimer(t, d);
          case Remove(t) => RemoveTimer(t);
        }
      }
      assert requests[..|requests|] == requests;
    }

    method DropFirst()
      requires Valid() && |timers| > 0
      modifies this
      ensures Valid() && deadlines == old(deadlines) - {old(timers[0].timer)} && posted == old(posted)
    {
      timers, mapper, deadlines := EraseAt(timers, mapper, deadlines, nextHandle, 0);
    }

    method ReinsertFirst(d: int)
      requires Valid() && |timers| > 0
      modifies this
      ensures Valid() && deadlines == old(deadlines)[old(timers[0].timer) := d] && posted == old(posted)
    {
      IndexReinsert(timers, mapper, deadlines, nextHandle, d);
      var t, node := timers[0].timer, Node(nextHandle, timers[0].timer);
      timers, mapper, deadlines, nextHandle :=
        Insert(Erase(timers, 0), deadlines - {t}, node, d), mapper[t := nextHandle], deadlines[t := d], nextHandle + 1;
    }

    // A turn of the loop for the first timer of the multiset.
    method VisitFirst(v: Visit)
      requires Valid() && |timers| > 0 && v.timer == timers[0].timer
      modifies this
      ensures Valid() && deadlines == Step(old(deadlines), v, isOneshot)
      ensures posted == old(posted) + if v.cancelled then [] else [v.timer]
    {
      if !v.cancelled {
        posted := posted + [v.timer];
      }
      if isOneshot(v.timer) || v.cancelled {
        DropFirst();
      } else {
        ReinsertFirst(NextDeadline(v));
      }
    }

    // The turns of `log` were taken over the timers of `m`, when `before` had been posted.
    ghost predicate Underway(m: Deadlines, before: seq<Timer>, log: seq<Visit>, now: int)
      reads this
    {
      && Valid() && Legal(m, log, isOneshot, now)
      && deadlines == Replay(m, log, isOneshot) && posted == before + Fired(log)
    }

    method FireFirst(ghost m: Deadlines, ghost before: seq<Timer>, ghost log: seq<Visit>, v: Visit, now: int)
      requires Underway(m, before, log, now)
      requires |timers| > 0 && v.timer == timers[0].timer && deadlines[v.timer] <= now
      modifies this
      ensures Underway(m, before, log + [v], now)
      ensures NextDeadline(v) > now ==> Expired(deadlines, now) < old(Expired(deadlines, now))
    {
      FirstIsDueFirst(timers, mapper, deadlines, nextHandle, now);
      ReplayAppend(m, log, v, isOneshot, now);
      if NextDeadline(v) > now { ExpiredShrinks(deadlines, v, isOneshot, now); }
      VisitFirst(v);
    }

    // The clock does not run back. From turn `late` on it has moved, or the visited timer has a period.
    method FireDue(now: int, cancelled: nat -> bool, frequency: nat -> nat, clock: nat -> int, ghost late: nat)
      returns (ghost log: seq<Visit>)
      requires Valid()
      requires forall k :: clock(k) >= now
      requires forall k :: k >= late ==> clock(k) > now || frequency(k) > 0
      modifies this
      ensures Underway(old(deadlines), old(posted), log, now) && NoneDue(deadlines, now)
      ensures Readings(log, cancelled, frequency, clock)
    {
      log := [];
      var k := 0;
      while |timers| > 0 && deadlines[timers[0].timer] <= now
        invariant Underway(old(deadlines), old(posted), log, now)
        invariant |log| == k && Readings(log, cancelled, frequency, clock)
        decreases if k < late then late - k else 0, Expired(deadlines, now)
      {
        var v := Visit(timers[0].timer, cancelled(k), frequency(k), clock(k));
        ReadingsAppend(log, v.timer, cancelled, frequency, clock);
        RepeatsOnlyAtZeroPeriod(v, isOneshot, now);
        FireFirst(old(deadlines), old(posted), log, v, now);
        log, k := log + [v], k + 1;
      }
      FirstDecides(timers, mapper, deadlines, nextHandle, now);
    }

    method ProcessTimers(requests: seq<Request>, now: int, cancelled: nat -> bool, frequency: nat -> nat,
                         clock: nat -> int, ghost late: nat)
      returns (next: int, ghost log: seq<Visit>)
      requires Valid() && AddsAreNew(deadlines, requests)
      requires forall k :: clock(k) >= now
      requires forall k :: k >= late ==> clock(k) > now || frequency(k) > 0
      modifies this
      ensures Valid()
      ensures var m := AfterRequests(old(deadlines), requests);
        Pass(m, log, isOneshot, now) && deadlines == Replay(m, log, isOneshot)
      ensures posted == old(posted) + Fired(log) && Readings(log, cancelled, frequency, clock)
      ensures deadlines == map[] ==> next == now + 86_400_000 * 1_000_000
      ensures deadlines != map[] ==> exists t :: Earliest(deadlines, t) && next == deadlines[t]
    {
      ProcessRequests(requests);
      log := FireDue(now, cancelled, frequency, clock, late);
      if |timers| == 0 {
        EmptyTogether(timers, mapper, deadlines, nextHandle);
        next := now + DAY;
      } else {
        FirstIsEarliest(timers, mapper, deadlines, nextHandle);
        next := deadlines[timers[0].timer];
      }
    }
  }
}
