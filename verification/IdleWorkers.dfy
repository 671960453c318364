/** Which workers of a pool are flagged idle, and the order in which a search visits them. */
module IdleFlags {
  import opened Collections

  function IdleSet(flags: seq<bool>): set<nat> {
    set i: nat | i < |flags| && flags[i]
  }

  // The idle workers that a search on behalf of `caller` may return; -1 stands for no caller.
  function Others(flags: seq<bool>, caller: int): set<nat> {
    set x | x in IdleSet(flags) && x != caller
  }

  lemma {:induction false} IdleSetUpdate(flags: seq<bool>, i: nat, idle: bool)
    requires i < |flags|
    ensures IdleSet(flags[i := idle]) == if idle then IdleSet(flags) + {i} else IdleSet(flags) - {i}
    ensures |IdleSet(flags[i := idle])| ==
            |IdleSet(flags)| + (if idle && !flags[i] then 1 else if !idle && flags[i] then -1 else 0)
  {
  }

  // The worker that probe number i of a search starting at `start` visits.
  function Probe(start: nat, i: nat, n: nat): (x: nat)
    requires n > 0
    ensures x < n
  {
    (start + i) % n
  }

  lemma {:induction false} ProbeIsRotation(start: nat, i: nat, n: nat)
    requires start < n && i < n
    ensures Probe(start, i, n) == if start + i < n then start + i else start + i - n
  {
    Remainder(start + i, n);
  }

  lemma {:induction false} Remainder(x: nat, n: nat)
    requires 0 < n && x < 2 * n
    ensures x % n == if x < n then x else x - n
  {
    var q := x / n;
    assert x == n * q + x % n;
    assert q < 2;
    assert n * q == if q == 1 then n else 0;
  }

  // The idle workers other than the caller among the first i probes, in probe order.
  function Found(flags: seq<bool>, start: nat, caller: int, i: nat): (found: seq<nat>)
    requires i <= |flags|
    ensures |found| <= i
  {
    if i == 0 then []
    else
      var x := Probe(start, i - 1, |flags|);
      Found(flags, start, caller, i - 1) + (if x != caller && flags[x] then [x] else [])
  }

  lemma {:induction false} FoundContains(flags: seq<bool>, start: nat, caller: int, i: nat, x: nat)
    requires start < |flags| && i <= |flags|
    ensures x in Found(flags, start, caller, i) <==>
            x < |flags| && x != caller && flags[x] && (exists j: nat :: j < i && Probe(start, j, |flags|) == x)
  {
    if i > 0 {
      FoundContains(flags, start, caller, i - 1, x);
      if x < |flags| && x != caller && flags[x] && exists j: nat :: j < i && Probe(start, j, |flags|) == x {
        var j: nat :| j < i && Probe(start, j, |flags|) == x;
        assert j < i - 1 || x == Probe(start, i - 1, |flags|);
      }
      if x in Found(flags, start, caller, i) && x !in Found(flags, start, caller, i - 1) {
        assert Probe(start, i - 1, |flags|) == x;
      }
    }
  }

  lemma {:induction false} FoundIsDistinct(flags: seq<bool>, start: nat, caller: int, i: nat)
    requires start < |flags| && i <= |flags|
    ensures Distinct(Found(flags, start, caller, i))
  {
    if i > 0 {
      FoundIsDistinct(flags, start, caller, i - 1);
      var x := Probe(start, i - 1, |flags|);
      FoundContains(flags, start, caller, i - 1, x);
      forall j: nat | j < i - 1 ensures Probe(start, j, |flags|) != x {
        ProbeIsRotation(start, j, |flags|);
        ProbeIsRotation(start, i - 1, |flags|);
      }
    }
  }

  function Elements(ids: seq<nat>): set<nat> {
    set x | x in ids
  }

  lemma {:induction false} DistinctCardinality(ids: seq<nat>)
    requires Distinct(ids)
    ensures |Elements(ids)| == |ids|
  {
    if ids != [] {
      var front, last := ids[..|ids| - 1], ids[|ids| - 1];
      DistinctCardinality(front);
      assert ids == front + [last] && last !in front;
      assert Elements(ids) == Elements(front) + {last};
    }
  }

  /** The modular probe visits every worker exactly once, so a full search finds every idle worker
      but the caller, without repetition. */
  lemma {:induction false} FullSearchFindsAll(flags: seq<bool>, start: nat, caller: int)
    requires start < |flags|
    ensures var found := Found(flags, start, caller, |flags|);
            && Distinct(found)
            && Elements(found) == Others(flags, caller)
            && |found| == |Others(flags, caller)|
            && |found| <= |IdleSet(flags)|
  {
    var n := |flags|;
    var found := Found(flags, start, caller, n);
    FoundIsDistinct(flags, start, caller, n);
    DistinctCardinality(found);
    forall x: nat ensures x in found <==> x in IdleSet(flags) && x != caller {
      FoundContains(flags, start, caller, n, x);
      if x < n {
        var j: nat := if x >= start then x - start else x + n - start;
        ProbeIsRotation(start, j, n);
        assert Probe(start, j, n) == x;
      }
    }
    assert Elements(found) == Others(flags, caller);
    SubsetCardinality(Others(flags, caller), IdleSet(flags));
  }

  lemma {:induction false} SubsetCardinality(a: set<nat>, b: set<nat>)
    requires a <= b
    ensures |a| <= |b|
  {
    assert b == a + (b - a);
  }

  lemma {:induction false} FoundPrefix(flags: seq<bool>, start: nat, caller: int, i: nat, k: nat)
    requires i <= k <= |flags|
    ensures Found(flags, start, caller, i) <= Found(flags, start, caller, k)
    decreases k - i
  {
    if i < k { FoundPrefix(flags, start, caller, i, k - 1); }
  }

  /** Taking the worker that a search finds first leaves the rest of its findings, in the same order. */
  lemma {:induction false} FoundAfterFirst(flags: seq<bool>, start: nat, caller: int, i: nat, x: nat)
    requires start < |flags| && i <= |flags| && x < |flags|
    requires Found(flags, start, caller, i) == [] || Found(flags, start, caller, i)[0] == x
    ensures Found(flags, start, caller, i) == [] ==> Found(flags[x := false], start, caller, i) == []
    ensures Found(flags, start, caller, i) != [] ==>
              Found(flags[x := false], start, caller, i) == Found(flags, start, caller, i)[1..]
  {
    if i > 0 {
      FoundPrefix(flags, start, caller, i - 1, i);
      FoundAfterFirst(flags, start, caller, i - 1, x);
      FoundIsDistinct(flags, start, caller, i);
      var found, front := Found(flags, start, caller, i), Found(flags, start, caller, i - 1);
      if |found| > |front| > 0 {
        assert found[|front|] != found[0];
        assert found[1..] == front[1..] + [found[|front|]];
      }
    }
  }
}

/** `idle_worker_set` used by one thread at a time. */
module IdleWorkers {
  import opened Collections
  import opened IdleFlags

  function Min(a: nat, b: nat): (m: nat)
    ensures m <= a && m <= b && (m == a || m == b)
  {
    if a < b then a else b
  }

  // The workers that find_idle_worker would take, best first.
  function Search(flags: seq<bool>, caller: int, hash: nat): seq<nat>
    requires -1 <= caller < |flags|
  {
    if |flags| == 0 then []
    else Found(flags, if caller != -1 then caller else hash % |flags|, caller, |flags|)
  }

  /** So the search fails only if no other worker is idle. */
  lemma {:induction false} SearchFindsAll(flags: seq<bool>, caller: int, hash: nat)
    requires -1 <= caller < |flags|
    ensures Elements(Search(flags, caller, hash)) == Others(flags, caller)
    ensures Search(flags, caller, hash) == [] <==> Others(flags, caller) == {}
  {
    if |flags| > 0 {
      FullSearchFindsAll(flags, if caller != -1 then caller else hash % |flags|, caller);
      assert Search(flags, caller, hash) != [] ==> Search(flags, caller, hash)[0] in Others(flags, caller);
    }
  }

  // How far a search that starts at `start` has to go to reach worker x.
  function Ahead(start: nat, x: nat, n: nat): int {
    if x >= start then x - start else x + n - start
  }

  // The workers lie ahead of `start`, nearest first, and nearer than i.
  predicate InRotation(found: seq<nat>, start: nat, n: nat, i: nat) {
    && (forall a :: 0 <= a < |found| ==> found[a] < n && Ahead(start, found[a], n) < i)
    && (forall a, b :: 0 <= a < b < |found| ==> Ahead(start, found[a], n) < Ahead(start, found[b], n))
  }

  lemma {:induction false} RotationStep(found: seq<nat>, start: nat, n: nat, i: nat, x: nat)
    requires InRotation(found, start, n, i) && x < n && Ahead(start, x, n) == i
    ensures InRotation(found, start, n, i + 1) && InRotation(found + [x], start, n, i + 1)
  {
  }

  lemma {:induction false} FoundInOrder(flags: seq<bool>, start: nat, caller: int, i: nat)
    requires start < |flags| && i <= |flags|
    ensures InRotation(Found(flags, start, caller, i), start, |flags|, i)
  {
    if i > 0 {
      FoundInOrder(flags, start, caller, i - 1);
      ProbeIsRotation(start, i - 1, |flags|);
      var front := Found(flags, start, caller, i - 1);
      RotationStep(front, start, |flags|, i - 1, Probe(start, i - 1, |flags|));
      assert front + [] == front;
    }
  }

  /** A search takes the idle workers in the order in which they follow its start: the caller, or, outside the pool, the
      worker that the thread's hash selects. */
  lemma {:induction false} SearchFollowsRotation(flags: seq<bool>, caller: int, hash: nat)
    requires -1 <= caller < |flags| && |flags| > 0
    ensures var found, start := Search(flags, caller, hash), if caller >= 0 then caller else hash % |flags|;
            forall a, b :: 0 <= a < b < |found| ==> Ahead(start, found[a], |flags|) < Ahead(start, found[b], |flags|)
  {
    var start: nat := if caller >= 0 then caller else hash % |flags|;
    FoundInOrder(flags, start, caller, |flags|);
    assert Search(flags, caller, hash) == Found(flags, start, caller, |flags|);
  }

  class IdleWorkerSet {
    var approxSize: int           // m_approx_size
    const flags: array<bool>      // m_idle_flags: true is status::idle

    ghost predicate Valid()
      reads this, flags
    {
      approxSize == |IdleSet(flags[..])|
    }

    constructor (size: nat)
      ensures Valid() && fresh(flags) && flags.Length == size && IdleSet(flags[..]) == {}
    {
      approxSize := 0;
      flags := new bool[size](i => false);
    }

    method SetIdle(i: nat)
      requires Valid() && i < flags.Length
      modifies this, flags
      ensures Valid() && flags[..] == old(flags[..])[i := true]
    {
      IdleSetUpdate(flags[..], i, true);
      var before := flags[i];
      flags[i] := true;
      if before {
        return;
      }
      approxSize := approxSize + 1;
    }

    method SetActive(i: nat)
      requires Valid() && i < flags.Length
      modifies this, flags
      ensures Valid() && flags[..] == old(flags[..])[i := false]
    {
      IdleSetUpdate(flags[..], i, false);
      var before := flags[i];
      flags[i] := false;
      if !before {
        return;
      }
      approxSize := approxSize - 1;
    }

    method TryAcquireFlag(i: nat) returns (swapped: bool)
      requires Valid() && i < flags.Length
      modifies this, flags
      ensures Valid() && flags[..] == old(flags[..])[i := false]
      ensures swapped == old(flags[..])[i]
    {
      IdleSetUpdate(flags[..], i, false);
      if !flags[i] {
        return false;
      }
      swapped := flags[i];
      flags[i] := false;
      if swapped {
        approxSize := approxSize - 1;
      }
    }

    // The flags after the workers in `acquired` have been taken.
    ghost predicate Taken(before: seq<bool>, acquired: seq<nat>)
      reads flags
    {
      && |before| == flags.Length
      && forall x :: 0 <= x < flags.Length ==> flags[x] == (before[x] && x !in acquired)
    }

    /** Acquires the first idle worker in probe order that is not the caller; -1 if there is none.
        Threads outside the pool have no caller index and start at their hash. */
    method FindIdleWorker(caller: int, hash: nat) returns (index: int)
      requires Valid() && -1 <= caller < flags.Length
      modifies this, flags
      ensures Valid()
      ensures var found := Search(old(flags[..]), caller, hash);
              && index == (if found == [] then -1 else found[0])
              && Taken(old(flags[..]), if found == [] then [] else [found[0]])
      ensures forall x :: 0 <= x < flags.Length ==> flags[x] == (old(flags[x]) && x != index)
    {
      ghost var before := flags[..];
      if approxSize <= 0 {
        assert IdleSet(before) == {};
        SearchFindsAll(before, caller, hash);
        return -1;
      }
      var n := flags.Length;
      assert n > 0 by { assert n == 0 ==> IdleSet(before) == {}; }
      var start: nat := if caller != -1 then caller else hash % n;
      var i := 0;
      while i < n
        invariant i <= n && Valid() && flags[..] == before
        invariant Found(before, start, caller, i) == []
      {
        index := (start + i) % n;
        assert index == Probe(start, i, n);
        if index != caller {
          var acquired := TryAcquireFlag(index);
          if acquired {
            assert Found(before, start, caller, i + 1) == [index];
            FoundPrefix(before, start, caller, i + 1, n);
            return;
          }
          assert before[index := false] == before;
        }
        i := i + 1;
      }
      index := -1;
    }

    /** Acquires min(idle workers other than the caller, maxCount) workers: exactly the first ones in
        probe order. */
    method FindIdleWorkers(caller: nat, maxCount: nat) returns (buffer: seq<nat>)
      requires Valid() && caller < flags.Length
      modifies this, flags
      ensures Valid()
      ensures |buffer| == Min(|Others(old(flags[..]), caller)|, maxCount)
      ensures buffer <= Found(old(flags[..]), caller, caller, flags.Length)
      ensures Distinct(buffer) && caller !in buffer
      ensures Taken(old(flags[..]), buffer)
      ensures forall x :: 0 <= x < flags.Length ==> flags[x] == (old(flags[x]) && x !in buffer)
    {
      ghost var before := flags[..];
      var n := flags.Length;
      FullSearchFindsAll(before, caller, caller);
      buffer := [];
      if approxSize <= 0 {
        return;
      }
      ghost var approx := approxSize;
      var maxWaiters: nat := Min(approxSize, maxCount);
      var i := 0;
      while i < n && |buffer| < maxWaiters
        invariant i <= n && Valid()
        invariant buffer == Found(before, caller, caller, i) && |buffer| <= maxWaiters
        invariant Taken(before, buffer)
      {
        var index := (caller + i) % n;
        assert index == Probe(caller, i, n);
        if index != caller {
          assert index !in buffer by { FoundIsDistinct(before, caller, caller, i + 1); FreshProbe(before, caller, i); }
          var acquired := TryAcquireFlag(index);
          if acquired {
            buffer := buffer + [index];
          }
        }
        i := i + 1;
      }
      FoundPrefix(before, caller, caller, i, n);
      FoundIsDistinct(before, caller, caller, i);
      FoundContains(before, caller, caller, i, caller);
    }
  }

  lemma {:induction false} FreshProbe(flags: seq<bool>, start: nat, i: nat)
    requires start < |flags| && i < |flags|
    ensures Probe(start, i, |flags|) !in Found(flags, start, start, i)
  {
    FoundContains(flags, start, start, i, Probe(start, i, |flags|));
    forall j: nat | j < i ensures Probe(start, j, |flags|) != Probe(start, i, |flags|) {
      ProbeIsRotation(start, j, |flags|);
      ProbeIsRotation(start, i, |flags|);
    }
  }
}

/**
  `idle_worker_set` under any interleaving: the flags and the approximate counter are updated by
  separate atomic operations. Each action is one of them.
 */
module IdleLedger {
  import opened Collections
  import opened IdleFlags

  // What a thread inside idle_worker_set still has to do.
  datatype Pending =
    | Nothing
    | Increment                   // set_idle: before fetch_add
    | Decrement                   // set_active or try_acquire_flag: before fetch_sub
    | Exchange(i: nat)            // try_acquire_flag: loaded idle, before its exchange

  // A marking taken by try_acquire_flag, or withdrawn by set_active.
  datatype Consumed = Consumed(mark: nat, acquired: bool)

  datatype State = State(
    approxSize: int,
    flags: seq<bool>,
    pending: seq<Pending>,        // one entry per thread
    mark: seq<nat>,               // the number of the marking that set each flag last
    marks: nat,                   // markings so far
    consumed: seq<Consumed>)      // markings taken off a flag, in order

  datatype Action =
    | SetIdle(t: nat, i: nat) | SetActive(t: nat, i: nat) | Load(t: nat, i: nat) | Continue(t: nat)

  function Initial(workers: nat, threads: nat): State {
    State(0, seq(workers, i => false), seq(threads, i => Nothing), seq(workers, i => 0), 0, [])
  }

  function Run(s: State, actions: seq<Action>): State {
    if |actions| == 0 then s
    else Next(Run(s, actions[..|actions| - 1]), actions[|actions| - 1])
  }

  function Next(s: State, a: Action): State {
    if a.t >= |s.pending| then s else
    var free := s.pending[a.t] == Nothing;
    match a
    case SetIdle(t, i) =>
      if !free || i >= |s.flags| || i >= |s.mark| then s
      else if s.flags[i] then s
      else s.(flags := s.flags[i := true], pending := s.pending[t := Increment],
              mark := s.mark[i := s.marks], marks := s.marks + 1)
    case SetActive(t, i) =>
      if !free || i >= |s.flags| || i >= |s.mark| then s
      else if !s.flags[i] then s
      else s.(flags := s.flags[i := false], pending := s.pending[t := Decrement],
              consumed := s.consumed + [Consumed(s.mark[i], false)])
    case Load(t, i) =>
      if free && i < |s.flags| && s.flags[i] then s.(pending := s.pending[t := Exchange(i)]) else s
    case Continue(t) => ContinueNext(s, t)
  }

  function ContinueNext(s: State, t: nat): State
    requires t < |s.pending|
  {
    match s.pending[t]
    case Nothing => s
    case Increment => s.(approxSize := s.approxSize + 1, pending := s.pending[t := Nothing])
    case Decrement => s.(approxSize := s.approxSize - 1, pending := s.pending[t := Nothing])
    case Exchange(i) =>
      if i < |s.flags| && i < |s.mark| && s.flags[i] then
        s.(flags := s.flags[i := false], pending := s.pending[t := Decrement],
           consumed := s.consumed + [Consumed(s.mark[i], true)])
      else s.(pending := s.pending[t := Nothing])
  }

  // ---------- Invariant ----------

  function Threads(pending: seq<Pending>, p: Pending): set<nat> {
    set t: nat | t < |pending| && pending[t] == p
  }

  lemma {:induction false} ThreadsUpdate(pending: seq<Pending>, t: nat, q: Pending, p: Pending)
    requires t < |pending|
    ensures |Threads(pending[t := q], p)| ==
            |Threads(pending, p)| +
            (if q == p && pending[t] != p then 1 else if q != p && pending[t] == p then -1 else 0)
  {
    var before := Threads(pending, p);
    assert before == if t in before then before + {t} else before - {t};
    if q == p { ThreadJoins(pending, t, p); } else { ThreadLeaves(pending, t, q, p); }
  }

  lemma {:induction false} ThreadJoins(pending: seq<Pending>, t: nat, p: Pending)
    requires t < |pending|
    ensures Threads(pending[t := p], p) == Threads(pending, p) + {t}
  {
    var after := Threads(pending[t := p], p);
    forall u ensures u in after <==> u in Threads(pending, p) || u == t { }
  }

  lemma {:induction false} ThreadLeaves(pending: seq<Pending>, t: nat, q: Pending, p: Pending)
    requires t < |pending| && q != p
    ensures Threads(pending[t := q], p) == Threads(pending, p) - {t}
  {
    var after := Threads(pending[t := q], p);
    forall u ensures u in after <==> u in Threads(pending, p) && u != t { }
  }

  predicate LedgerInv(s: State) {
    s.approxSize == |IdleSet(s.flags)| - |Threads(s.pending, Increment)| + |Threads(s.pending, Decrement)|
  }

  // Consumed markings are distinct, and none of them is still on a flag.
  predicate MarkInv(s: State) {
    && |s.mark| == |s.flags|
    && (forall a, b :: 0 <= a < b < |s.consumed| ==> s.consumed[a].mark != s.consumed[b].mark)
    && (forall a :: 0 <= a < |s.consumed| ==> s.consumed[a].mark < s.marks)
    && (forall i :: 0 <= i < |s.flags| && s.flags[i] ==> s.mark[i] < s.marks)
    && (forall i, a :: 0 <= i < |s.flags| && s.flags[i] && 0 <= a < |s.consumed| ==> s.mark[i] != s.consumed[a].mark)
    && (forall i, j :: 0 <= i < j < |s.flags| && s.flags[i] && s.flags[j] ==> s.mark[i] != s.mark[j])
  }

  predicate Inv(s: State) {
    LedgerInv(s) && MarkInv(s)
  }

  lemma {:induction false} NextKeepsLedger(s: State, a: Action)
    requires Inv(s)
    ensures LedgerInv(Next(s, a))
  {
    if a.t < |s.pending| {
      var p := Next(s, a).pending[a.t];
      ThreadsUpdate(s.pending, a.t, p, Increment);
      ThreadsUpdate(s.pending, a.t, p, Decrement);
      var i := if !a.Continue? then a.i else if s.pending[a.t].Exchange? then s.pending[a.t].i else |s.flags|;
      if i < |s.flags| { IdleSetUpdate(s.flags, i, Next(s, a).flags[i]); }
    }
  }

  lemma {:induction false} ConsumingKeepsMarks(s: State, i: nat, acquired: bool)
    requires MarkInv(s) && i < |s.flags| && s.flags[i]
    ensures MarkInv(s.(flags := s.flags[i := false], consumed := s.consumed + [Consumed(s.mark[i], acquired)]))
  {
  }

  lemma {:induction false} MarkingKeepsMarks(s: State, i: nat)
    requires MarkInv(s) && i < |s.flags| && !s.flags[i]
    ensures MarkInv(s.(flags := s.flags[i := true], mark := s.mark[i := s.marks], marks := s.marks + 1))
  {
  }

  // The counter and the threads' pending steps do not matter for the markings.
  lemma {:induction false} SameMarks(s: State, t: State)
    requires MarkInv(s) && t == s.(approxSize := t.approxSize, pending := t.pending)
    ensures MarkInv(t)
  {
  }

  lemma {:induction false} ContinueKeepsMarks(s: State, t: nat)
    requires MarkInv(s) && t < |s.pending|
    ensures MarkInv(ContinueNext(s, t))
  {
    var after := ContinueNext(s, t);
    if s.pending[t].Exchange? && s.pending[t].i < |s.flags| && s.flags[s.pending[t].i] {
      var i := s.pending[t].i;
      ConsumingKeepsMarks(s, i, true);
      SameMarks(s.(flags := s.flags[i := false], consumed := s.consumed + [Consumed(s.mark[i], true)]), after);
    } else {
      SameMarks(s, after);
    }
  }

  lemma {:induction false} NextKeepsMarks(s: State, a: Action)
    requires MarkInv(s)
    ensures MarkInv(Next(s, a))
  {
    var t := Next(s, a);
    if a.t < |s.pending| && t != s {
      match a
      case SetIdle(_, i) =>
        MarkingKeepsMarks(s, i);
        SameMarks(s.(flags := s.flags[i := true], mark := s.mark[i := s.marks], marks := s.marks + 1), t);
      case SetActive(_, i) =>
        ConsumingKeepsMarks(s, i, false);
        SameMarks(s.(flags := s.flags[i := false], consumed := s.consumed + [Consumed(s.mark[i], false)]), t);
      case Load(_, _) => SameMarks(s, t);
      case Continue(t) => ContinueKeepsMarks(s, t);
    }
  }

  lemma {:induction false} RunKeepsInv(workers: nat, threads: nat, actions: seq<Action>)
    ensures Inv(Run(Initial(workers, threads), actions))
  {
    if |actions| == 0 {
      var s := Initial(workers, threads);
      assert IdleSet(s.flags) == {} && Threads(s.pending, Increment) == {} && Threads(s.pending, Decrement) == {};
    } else {
      RunKeepsInv(workers, threads, actions[..|actions| - 1]);
      NextKeepsLedger(Run(Initial(workers, threads), actions[..|actions| - 1]), actions[|actions| - 1]);
      NextKeepsMarks(Run(Initial(workers, threads), actions[..|actions| - 1]), actions[|actions| - 1]);
    }
  }

  /** At every point of every interleaving the counter equals the number of idle flags, corrected by
      the updates that threads have yet to make; with none pending it is exact. */
  lemma {:induction false} CounterMatchesFlags(workers: nat, threads: nat, actions: seq<Action>)
    ensures var s := Run(Initial(workers, threads), actions);
            s.approxSize == |IdleSet(s.flags)| - |Threads(s.pending, Increment)| + |Threads(s.pending, Decrement)|
  {
    RunKeepsInv(workers, threads, actions);
  }

  // ---------- What each operation does ----------

  /** Marking a worker idle or active sets its flag, whatever it was; the counter follows in a second step only when the
      flag changed. */
  lemma {:induction false} MarkOutcome(workers: nat, threads: nat, actions: seq<Action>, t: nat, i: nat)
    requires var s := Run(Initial(workers, threads), actions);
             t < |s.pending| && s.pending[t] == Nothing && i < |s.flags|
    ensures var s := Run(Initial(workers, threads), actions);
            var idle, active := Next(s, SetIdle(t, i)), Next(s, SetActive(t, i));
            && |idle.pending| == |active.pending| == |s.pending|
            && idle.flags == s.flags[i := true] && (idle.pending[t] == if s.flags[i] then Nothing else Increment)
            && active.flags == s.flags[i := false] && (active.pending[t] == if s.flags[i] then Decrement else Nothing)
            && (active.consumed == if s.flags[i] then s.consumed + [Consumed(s.mark[i], false)] else s.consumed)
  {
    RunKeepsInv(workers, threads, actions);
    var s := Run(Initial(workers, threads), actions);
    assert s.flags == s.flags[i := s.flags[i]];
  }

  /** An acquirer that saw an idle flag gets the worker if and only if the flag is still set at its exchange. */
  lemma {:induction false} AcquireOutcome(workers: nat, threads: nat, actions: seq<Action>, t: nat)
    requires var s := Run(Initial(workers, threads), actions);
             t < |s.pending| && s.pending[t].Exchange? && s.pending[t].i < |s.flags|
    ensures var s := Run(Initial(workers, threads), actions);
            var i, u := s.pending[t].i, Next(s, Continue(t));
            && |u.pending| == |s.pending| && u.flags == s.flags[i := false] && |s.mark| == |s.flags|
            && if s.flags[i] then u.pending[t] == Decrement && u.consumed == s.consumed + [Consumed(s.mark[i], true)]
               else u.pending[t] == Nothing && u.consumed == s.consumed
  {
    RunKeepsInv(workers, threads, actions);
    var s := Run(Initial(workers, threads), actions);
    assert s.flags == s.flags[s.pending[t].i := s.flags[s.pending[t].i]];
  }

  /** A search looks at a flag before it takes it: it goes on to the exchange if and only if the flag is set. */
  lemma {:induction false} LoadOutcome(workers: nat, threads: nat, actions: seq<Action>, t: nat, i: nat)
    requires var s := Run(Initial(workers, threads), actions);
             t < |s.pending| && s.pending[t] == Nothing && i < |s.flags|
    ensures var s := Run(Initial(workers, threads), actions);
            var u := Next(s, Load(t, i));
            && |u.pending| == |s.pending| && u.flags == s.flags
            && (u.pending[t] == if s.flags[i] then Exchange(i) else Nothing)
  {
  }

  function Weight(p: Pending): nat {
    match p
    case Nothing => 0
    case Exchange(_) => 2
    case _ => 1
  }

  function Weights(s: State): seq<nat> {
    seq(|s.pending|, t requires 0 <= t < |s.pending| => Weight(s.pending[t]))
  }

  lemma {:induction false} SettleStep(s: State, t: nat)
    requires t < |s.pending| && s.pending[t] != Nothing
    ensures var u := Next(s, Continue(t)); |u.pending| == |s.pending| && Total(Weights(u)) < Total(Weights(s))
  {
    var u := Next(s, Continue(t));
    TotalUpdate(Weights(s), t, Weight(u.pending[t]));
    assert Weights(u) == Weights(s)[t := Weight(u.pending[t])];
  }

  lemma {:induction false} RunLast(s: State, front: seq<Action>, a: Action)
    ensures Run(s, front + [a]) == Next(Run(s, front), a)
  {
    assert (front + [a])[..|front|] == front;
  }

  lemma {:induction false} RunCons(s: State, a: Action, rest: seq<Action>)
    ensures Run(s, [a] + rest) == Run(Next(s, a), rest)
  {
    if rest == [] {
      assert [a] + rest == [] + [a];
      RunLast(s, [], a);
    } else {
      var front, last := rest[..|rest| - 1], rest[|rest| - 1];
      assert rest == front + [last];
      assert [a] + rest == ([a] + front) + [last];
      RunCons(s, a, front);
      RunLast(s, [a] + front, last);
      RunLast(Next(s, a), front, last);
    }
  }

  lemma {:induction false} CanSettle(s: State) returns (more: seq<Action>)
    requires Inv(s)
    ensures var u := Run(s, more); Inv(u) && forall t :: 0 <= t < |u.pending| ==> u.pending[t] == Nothing
    decreases Total(Weights(s))
  {
    more := [];
    if t :| 0 <= t < |s.pending| && s.pending[t] != Nothing {
      SettleStep(s, t);
      NextKeepsLedger(s, Continue(t));
      NextKeepsMarks(s, Continue(t));
      var rest := CanSettle(Next(s, Continue(t)));
      RunCons(s, Continue(t), rest);
      more := [Continue(t)] + rest;
    }
  }

  /** When all threads finish what they began, the counter is exact. */
  lemma {:induction false} CounterSettles(workers: nat, threads: nat, actions: seq<Action>) returns (more: seq<Action>)
    ensures var u := Run(Run(Initial(workers, threads), actions), more);
            (forall t :: 0 <= t < |u.pending| ==> u.pending[t] == Nothing) && u.approxSize == |IdleSet(u.flags)|
  {
    RunKeepsInv(workers, threads, actions);
    more := CanSettle(Run(Initial(workers, threads), actions));
    var u := Run(Run(Initial(workers, threads), actions), more);
    assert Threads(u.pending, Increment) == {} && Threads(u.pending, Decrement) == {};
  }

  /** Every marking of a worker as idle is consumed at most once, by one acquirer or by the worker itself. */
  lemma {:induction false} MarkingConsumedOnce(workers: nat, threads: nat, actions: seq<Action>)
    ensures var s := Run(Initial(workers, threads), actions);
            && (forall a, b :: 0 <= a < b < |s.consumed| ==> s.consumed[a].mark != s.consumed[b].mark)
            && (forall a :: 0 <= a < |s.consumed| ==> s.consumed[a].mark < s.marks)
  {
    RunKeepsInv(workers, threads, actions);
  }
}
