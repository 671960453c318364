/** The intrusive singly linked FIFO that `async_lock` and `async_condition_variable` queue on. */
module SinglyLinkedList {

  class Node<T> {
    var next: Node?<T>
    const value: T

    constructor (value: T)
      ensures next == null && this.value == value
    {
      this.value := value;
      next := null;
    }
  }

  ghost function Values<T>(nodes: seq<Node<T>>): seq<T> {
    seq(|nodes|, i requires 0 <= i < |nodes| => nodes[i].value)
  }

  class SList<T> {
    var head: Node?<T>
    var tail: Node?<T>
    ghost var nodes: seq<Node<T>>

    ghost predicate Valid()
      reads this, nodes
    {
      && (forall i, j :: 0 <= i < j < |nodes| ==> nodes[i] != nodes[j])
      && (forall i {:trigger nodes[i].next} :: 0 <= i < |nodes| ==>
            nodes[i].next == if i + 1 < |nodes| then nodes[i + 1] else null)
      && head == (if |nodes| == 0 then null else nodes[0])
      && tail == (if |nodes| == 0 then null else nodes[|nodes| - 1])
    }

    constructor ()
      ensures Valid() && nodes == []
    {
      head, tail, nodes := null, null, [];
    }

    // The move constructor: takes over the nodes of rhs and leaves it empty.
    constructor Move(rhs: SList<T>)
      requires rhs.Valid()
      modifies rhs
      ensures Valid() && nodes == old(rhs.nodes)
      ensures rhs.Valid() && rhs.nodes == []
    {
      head, tail, nodes := rhs.head, rhs.tail, rhs.nodes;
      new;
      rhs.head, rhs.tail, rhs.nodes := null, null, [];
    }

    method Empty() returns (empty: bool)
      requires Valid()
      ensures empty <==> nodes == []
    {
      empty := head == null;
    }

    method PushBack(node: Node<T>)
      requires Valid() && node !in nodes && node.next == null
      modifies this, tail
      ensures Valid() && nodes == old(nodes) + [node]
      ensures node.next == null
    {
      nodes := nodes + [node];
      if head == null {
        head, tail := node, node;
        return;
      }
      tail.next := node;
      tail := node;
    }

    // The popped node keeps its stale next pointer; it is no longer part of the list.
    method PopFront() returns (node: Node?<T>)
      requires Valid()
      modifies this
      ensures Valid()
      ensures old(nodes) == [] ==> node == null && nodes == []
      ensures old(nodes) != [] ==> node == old(nodes)[0] && nodes == old(nodes)[1..]
    {
      node := head;
      if node == null {
        return;
      }
      head := head.next;
      if head == null {
        tail := null;
      }
      nodes := nodes[1..];
    }
  }
}

/** `notify_one` and `notify_all` on the list of awaiters. */
module Notification {
  import opened SinglyLinkedList

  // What happens to the member list while a resumed coroutine runs: a coroutine starts to await, or another
  // notification takes the first awaiter, whose coroutine may await again in the same memory.
  datatype Event = Arrive(id: nat) | Notify(again: bool)

  // A resumption: what happens before and after the resumed coroutine awaits again, if it does.
  datatype Turn = Turn(before: seq<Event>, again: bool, after: seq<Event>)

  // The queue of awaiters after an event, after several, and after a resumption.
  function AfterEvent(queue: seq<nat>, e: Event): seq<nat> {
    match e
    case Arrive(id) => queue + [id]
    case Notify(again) => if queue == [] then [] else queue[1..] + if again then [queue[0]] else []
  }

  function AfterEvents(queue: seq<nat>, events: seq<Event>): seq<nat> {
    if |events| == 0 then queue
    else AfterEvent(AfterEvents(queue, events[..|events| - 1]), events[|events| - 1])
  }

  function AfterTurn(queue: seq<nat>, id: nat, turn: Turn): seq<nat> {
    AfterEvents(AfterEvents(queue, turn.before) + if turn.again then [id] else [], turn.after)
  }

  function AfterTurns(queue: seq<nat>, ids: seq<nat>, turns: nat -> Turn): seq<nat> {
    if |ids| == 0 then queue
    else AfterTurn(AfterTurns(queue, ids[..|ids| - 1], turns), ids[|ids| - 1], turns(|ids| - 1))
  }

  lemma {:induction false} TurnsStep(queue: seq<nat>, ids: seq<nat>, id: nat, turns: nat -> Turn)
    ensures AfterTurns(queue, ids + [id], turns) == AfterTurn(AfterTurns(queue, ids, turns), id, turns(|ids|))
  {
    assert (ids + [id])[..|ids|] == ids;
  }

  /** An awaiter leaves the queue only by a notification: with k of them among the events, all awaiters but the first
      k stay, in order, ahead of those that arrived. */
  lemma {:induction false} OnlyNotificationsTake(queue: seq<nat>, events: seq<Event>)
    ensures Taken(events) <= |queue| ==> queue[Taken(events)..] <= AfterEvents(queue, events)
  {
    if |events| > 0 {
      var front := AfterEvents(queue, events[..|events| - 1]);
      var k := Taken(events[..|events| - 1]);
      OnlyNotificationsTake(queue, events[..|events| - 1]);
      if k < |queue| && events[|events| - 1].Notify? {
        assert queue[k..][1..] == queue[k + 1..];
      }
    }
  }

  function Arrivals(events: seq<Event>): seq<nat> {
    if |events| == 0 then []
    else
      var e := events[|events| - 1];
      Arrivals(events[..|events| - 1]) + if e.Arrive? then [e.id] else []
  }

  /** Without other notifications nobody leaves, and the newcomers queue up behind, in order. */
  lemma {:induction false} NewcomersQueueUp(queue: seq<nat>, events: seq<Event>)
    requires Taken(events) == 0
    ensures AfterEvents(queue, events) == queue + Arrivals(events)
  {
    if |events| > 0 { NewcomersQueueUp(queue, events[..|events| - 1]); }
  }

  /** Without other notifications a resumption leaves everybody queued: those before, then the newcomers and, if it
      awaits again, the resumed coroutine, each where it joined. */
  lemma {:induction false} UndisturbedTurn(queue: seq<nat>, id: nat, turn: Turn)
    requires Taken(turn.before) == Taken(turn.after) == 0
    ensures AfterTurn(queue, id, turn) ==
            queue + Arrivals(turn.before) + (if turn.again then [id] else []) + Arrivals(turn.after)
  {
    NewcomersQueueUp(queue, turn.before);
    NewcomersQueueUp(queue + Arrivals(turn.before) + (if turn.again then [id] else []), turn.after);
  }

  lemma {:induction false} AwaitsAgain(queue: seq<nat>, id: nat)
    ensures AfterTurn(queue, id, Turn([], true, [])) == queue + [id]
  {
    assert AfterEvents(queue, []) == queue && AfterEvents(queue + [id], []) == queue + [id];
  }

  /** So when every resumed coroutine does nothing but await again, `notify_all` leaves the queue as it was. */
  lemma {:induction false} AllAwaitAgain(ids: seq<nat>, turns: nat -> Turn)
    requires forall k: nat :: turns(k) == Turn([], true, [])
    ensures AfterTurns([], ids, turns) == ids
  {
    if |ids| > 0 {
      var front, last := ids[..|ids| - 1], ids[|ids| - 1];
      AllAwaitAgain(front, turns);
      AwaitsAgain(front, last);
      assert ids == front + [last];
    }
  }

  function Taken(events: seq<Event>): nat {
    if |events| == 0 then 0 else Taken(events[..|events| - 1]) + if events[|events| - 1].Notify? then 1 else 0
  }

  lemma {:induction false} ValuesPush(nodes: seq<Node<nat>>, node: Node<nat>)
    ensures Values(nodes + [node]) == Values(nodes) + [node.value]
  {
  }

  lemma {:induction false} ValuesPop(nodes: seq<Node<nat>>)
    requires nodes != []
    ensures Values(nodes[1..]) == Values(nodes)[1..] && Values(nodes)[0] == nodes[0].value
  {
  }

  lemma {:induction false} ValuesPrefix(nodes: seq<Node<nat>>, k: nat)
    requires k < |nodes|
    ensures Values(nodes)[..k] + [nodes[k].value] == Values(nodes)[..k + 1]
    ensures nodes[k..][0] == nodes[k] && nodes[k..][1..] == nodes[k + 1..]
  {
  }

  class AsyncConditionVariable {
    const awaiters: SList<nat>                  // m_awaiters; the value names the awaiting coroutine

    constructor ()
      ensures awaiters.Valid() && awaiters.nodes == []
    {
      awaiters := new SList();
    }

    // cv_awaiter::await_suspend with a node that is on no list.
    method Enqueue(node: Node<nat>)
      requires awaiters.Valid() && node !in awaiters.nodes
      modifies awaiters, awaiters.nodes, node
      ensures awaiters.Valid() && awaiters.nodes == old(awaiters.nodes) + [node]
    {
      node.next := null;
      assert awaiters.tail != null ==> awaiters.tail in awaiters.nodes;
      awaiters.PushBack(node);
    }

    method Interfere(e: Event)
      requires awaiters.Valid()
      modifies awaiters, awaiters.nodes
      ensures awaiters.Valid() && Values(awaiters.nodes) == AfterEvent(Values(old(awaiters.nodes)), e)
      ensures forall o: object :: o in awaiters.nodes ==> o in old(awaiters.nodes) || fresh(o)
    {
      ghost var queued := awaiters.nodes;
      match e {
        case Arrive(id) =>
          var node := new Node(id);
          ValuesPush(queued, node);
          Enqueue(node);
        case Notify(again) =>
          var node := awaiters.PopFront();
          if node != null {
            ValuesPop(queued);
            if again {
              ValuesPush(queued[1..], node);
              Enqueue(node);
            } else {
              node.next := *;
            }
          }
      }
    }

    method InterfereAll(events: seq<Event>)
      requires awaiters.Valid()
      modifies awaiters, awaiters.nodes
      ensures awaiters.Valid() && Values(awaiters.nodes) == AfterEvents(Values(old(awaiters.nodes)), events)
      ensures forall o: object :: o in awaiters.nodes ==> o in old(awaiters.nodes) || fresh(o)
    {
      for i := 0 to |events|
        invariant awaiters.Valid() && Values(awaiters.nodes) == AfterEvents(Values(old(awaiters.nodes)), events[..i])
        invariant forall o: object :: o in awaiters.nodes ==> o in old(awaiters.nodes) || fresh(o)
      {
        assert forall j :: 0 <= j < |awaiters.nodes| ==>
                 awaiters.nodes[j] in old(awaiters.nodes) || fresh(awaiters.nodes[j]);
        assert events[..i + 1][..i] == events[..i];
        Interfere(events[i]);
      }
      assert events[..|events|] == events;
    }

    /** The coroutine behind a popped node runs: it may await again in the same memory, or its frame is overwritten. */
    method Resume(node: Node<nat>, turn: Turn)
      requires awaiters.Valid() && node !in awaiters.nodes
      modifies awaiters, awaiters.nodes, node
      ensures awaiters.Valid() && Values(awaiters.nodes) == AfterTurn(Values(old(awaiters.nodes)), node.value, turn)
      ensures forall o: object :: o in awaiters.nodes ==> o in old(awaiters.nodes) || o == node || fresh(o)
    {
      InterfereAll(turn.before);
      ghost var queued := awaiters.nodes;
      assert forall j :: 0 <= j < |queued| ==> queued[j] in old(awaiters.nodes) || fresh(queued[j]);
      if turn.again {
        ValuesPush(queued, node);
        Enqueue(node);
      } else {
        assert Values(queued) + [] == Values(queued);
        node.next := *;
      }
      assert forall j :: 0 <= j < |awaiters.nodes| ==>
               awaiters.nodes[j] in old(awaiters.nodes) || awaiters.nodes[j] == node || fresh(awaiters.nodes[j]);
      InterfereAll(turn.after);
    }

    /** Resumes the first awaiter, if there is one, and leaves the others to what happens meanwhile. */
    method NotifyOne(turn: Turn) returns (resumed: seq<nat>)
      requires awaiters.Valid()
      modifies awaiters, awaiters.nodes
      ensures awaiters.Valid()
      ensures var queue := Values(old(awaiters.nodes));
              if queue == [] then resumed == [] && Values(awaiters.nodes) == []
              else resumed == [queue[0]] && Values(awaiters.nodes) == AfterTurn(queue[1..], queue[0], turn)
      ensures old(awaiters.nodes) != [] ==> resumed == [old(awaiters.nodes)[0].value]
    {
      resumed := [];
      ghost var queued := awaiters.nodes;
      var awaiter := awaiters.PopFront();
      if awaiter != null {
        ValuesPop(queued);
        resumed := [awaiter.value];
        Resume(awaiter, turn);
      }
    }

    ghost predicate Apart(local: SList<nat>)
      reads local, awaiters
    {
      local != awaiters && forall o: object :: o in local.nodes ==> o !in awaiters.nodes
    }

    // One turn of the loop: pop from the local list, then resume.
    method ResumeNext(local: SList<nat>, turn: Turn) returns (awaiter: Node<nat>)
      requires local.Valid() && awaiters.Valid() && Apart(local) && local.nodes != []
      modifies local, local.nodes[0], awaiters, awaiters.nodes
      ensures local.Valid() && awaiters.Valid() && Apart(local)
      ensures awaiter == old(local.nodes)[0] && local.nodes == old(local.nodes)[1..]
      ensures Values(awaiters.nodes) == AfterTurn(Values(old(awaiters.nodes)), awaiter.value, turn)
      ensures forall o: object :: o in awaiters.nodes ==> o in old(awaiters.nodes) || o == awaiter || fresh(o)
    {
      var node := local.PopFront();
      awaiter := node;
      assert awaiter !in local.nodes;
      label popped:
      Resume(awaiter, turn);
      forall i | 0 <= i < |local.nodes|
        ensures local.nodes[i].next == old@popped(local.nodes[i].next)
      {
        var o: object := local.nodes[i];
        assert o in old@popped(local.nodes) && o !in old@popped(awaiters.nodes) && o != awaiter;
      }
    }

    /** Resumes exactly the awaiters queued when it starts, once each and first in first out, and terminates even if
        every one of them awaits again. Whoever joined meanwhile is queued, unless another notification took it. */
    method NotifyAll(turns: nat -> Turn) returns (resumed: seq<nat>)
      requires awaiters.Valid()
      modifies awaiters, awaiters.nodes
      ensures awaiters.Valid()
      ensures resumed == Values(old(awaiters.nodes))
      ensures |resumed| == |old(awaiters.nodes)|
      ensures forall i :: 0 <= i < |resumed| ==> resumed[i] == old(awaiters.nodes)[i].value
      ensures Values(awaiters.nodes) == AfterTurns([], resumed, turns)
    {
      ghost var queued := awaiters.nodes;
      var local := new SList.Move(awaiters);
      resumed := [];
      while local.head != null
        invariant local.Valid() && awaiters.Valid() && Apart(local) && fresh(local)
        invariant |resumed| <= |queued| && local.nodes == queued[|resumed|..]
        invariant resumed == Values(queued)[..|resumed|]
        invariant Values(awaiters.nodes) == AfterTurns([], resumed, turns)
        invariant forall o: object :: o in awaiters.nodes ==> o in old(awaiters.nodes) || fresh(o)
        decreases |queued| - |resumed|
      {
        ValuesPrefix(queued, |resumed|);
        assert queued[|resumed|] in old(awaiters.nodes);
        assert forall i :: 0 <= i < |awaiters.nodes| ==>
                 awaiters.nodes[i] in old(awaiters.nodes) || fresh(awaiters.nodes[i]);
        TurnsStep([], resumed, local.nodes[0].value, turns);
        var awaiter := ResumeNext(local, turns(|resumed|));
        resumed := resumed + [awaiter.value];
      }
    }
  }
}
