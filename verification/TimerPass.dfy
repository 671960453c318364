/**
  What one pass of `process_timers` over the timers has to do, whatever holds them: as long as some timer is
  due, visit an earliest one; fire it unless it is cancelled; drop it when it is one-shot or cancelled, and
  otherwise move its deadline one period past the clock. A pass is the log of its visits.
 */
module TimerPass {

  type Timer = nat
  type Deadlines = map<Timer, int>

  const TICKS_PER_MILLISECOND := 1_000_000
  const DAY := 24 * 60 * 60 * 1000 * TICKS_PER_MILLISECOND

  // A turn of the loop: the timer taken, and what its cancellation flag, its frequency and the clock read.
  datatype Visit = Visit(timer: Timer, cancelled: bool, frequency: nat, clock: int)

  // make_deadline
  function NextDeadline(v: Visit): int { v.clock + TICKS_PER_MILLISECOND * v.frequency }

  predicate Drops(v: Visit, isOneshot: Timer -> bool) { isOneshot(v.timer) || v.cancelled }

  function Step(m: Deadlines, v: Visit, isOneshot: Timer -> bool): Deadlines {
    if Drops(v, isOneshot) then m - {v.timer} else m[v.timer := NextDeadline(v)]
  }

  function Replay(m: Deadlines, log: seq<Visit>, isOneshot: Timer -> bool): Deadlines {
    if |log| == 0 then m else Step(Replay(m, log[..|log| - 1], isOneshot), log[|log| - 1], isOneshot)
  }

  predicate Earliest(m: Deadlines, t: Timer) {
    t in m && forall u :: u in m ==> m[t] <= m[u]
  }

  predicate DueFirst(m: Deadlines, t: Timer, now: int) {
    Earliest(m, t) && m[t] <= now
  }

  // Every visit takes an earliest timer of those left, and takes it only when it is due.
  predicate Legal(m: Deadlines, log: seq<Visit>, isOneshot: Timer -> bool, now: int) {
    forall i :: 0 <= i < |log| ==> DueFirst(Replay(m, log[..i], isOneshot), log[i].timer, now)
  }

  predicate NoneDue(m: Deadlines, now: int) {
    forall t :: t in m ==> m[t] > now
  }

  // A pass goes on until no timer is due.
  predicate Pass(m: Deadlines, log: seq<Visit>, isOneshot: Timer -> bool, now: int) {
    Legal(m, log, isOneshot, now) && NoneDue(Replay(m, log, isOneshot), now)
  }

  predicate Visited(log: seq<Visit>, t: Timer) {
    exists i :: 0 <= i < |log| && log[i].timer == t
  }

  // The deadline that a visited timer had.
  function Due(m: Deadlines, log: seq<Visit>, isOneshot: Timer -> bool, now: int, i: nat): int
    requires Legal(m, log, isOneshot, now) && i < |log|
  {
    Replay(m, log[..i], isOneshot)[log[i].timer]
  }

  // The timers posted to their executors.
  function Fired(log: seq<Visit>): seq<Timer> {
    if |log| == 0 then []
    else
      var v := log[|log| - 1];
      Fired(log[..|log| - 1]) + if v.cancelled then [] else [v.timer]
  }

  // Turn `k` of the loop reads the visited timer as `cancelled(k)` with period `frequency(k)`, and the clock as
  // `clock(k)`.
  ghost predicate Readings(log: seq<Visit>, cancelled: nat -> bool, frequency: nat -> nat, clock: nat -> int) {
    forall k :: 0 <= k < |log| ==>
      log[k].cancelled == cancelled(k) && log[k].frequency == frequency(k) && log[k].clock == clock(k)
  }

  lemma {:induction false} ReadingsAppend(log: seq<Visit>, t: Timer, cancelled: nat -> bool, frequency: nat -> nat,
                                          clock: nat -> int)
    requires Readings(log, cancelled, frequency, clock)
    ensures var k := |log|;
            Readings(log + [Visit(t, cancelled(k), frequency(k), clock(k))], cancelled, frequency, clock)
  { }

  // ---------- Prefixes and suffixes of a pass ----------

  lemma {:induction false} LegalPrefix(m: Deadlines, log: seq<Visit>, isOneshot: Timer -> bool, now: int, k: nat)
    requires Legal(m, log, isOneshot, now) && k <= |log|
    ensures Legal(m, log[..k], isOneshot, now)
  {
    forall i | 0 <= i < k ensures DueFirst(Replay(m, log[..k][..i], isOneshot), log[..k][i].timer, now) {
      assert log[..k][..i] == log[..i];
    }
  }

  lemma {:induction false} ReplaySplit(m: Deadlines, log: seq<Visit>, isOneshot: Timer -> bool, k: nat)
    requires k <= |log|
    ensures Replay(Replay(m, log[..k], isOneshot), log[k..], isOneshot) == Replay(m, log, isOneshot)
  {
    if k == |log| {
      assert log[..k] == log;
    } else {
      var n := |log| - 1;
      assert log[..n][..k] == log[..k];
      assert log[..n][k..] == log[k..][..|log[k..]| - 1];
      ReplaySplit(m, log[..n], isOneshot, k);
    }
  }

  lemma {:induction false} PassSuffix(m: Deadlines, log: seq<Visit>, isOneshot: Timer -> bool, now: int, k: nat)
    requires Pass(m, log, isOneshot, now) && k <= |log|
    ensures Pass(Replay(m, log[..k], isOneshot), log[k..], isOneshot, now)
  {
    var middle := Replay(m, log[..k], isOneshot);
    ReplaySplit(m, log, isOneshot, k);
    forall i | 0 <= i < |log| - k ensures DueFirst(Replay(middle, log[k..][..i], isOneshot), log[k..][i].timer, now) {
      ReplaySplit(m, log[..k + i], isOneshot, k);
      assert log[..k + i][..k] == log[..k] && log[..k + i][k..] == log[k..][..i];
      assert DueFirst(Replay(m, log[..k + i], isOneshot), log[k + i].timer, now);
    }
  }

  // ---------- Which timers are visited ----------

  lemma {:induction false} UnvisitedIsUntouched(m: Deadlines, log: seq<Visit>, isOneshot: Timer -> bool, t: Timer)
    requires !Visited(log, t)
    ensures var after := Replay(m, log, isOneshot);
      (t in after <==> t in m) && (t in m ==> after[t] == m[t])
  {
    if |log| > 0 {
      assert !Visited(log[..|log| - 1], t);
      UnvisitedIsUntouched(m, log[..|log| - 1], isOneshot, t);
    }
  }

  lemma {:induction false} NotDueIsNotVisited(m: Deadlines, log: seq<Visit>, isOneshot: Timer -> bool, now: int,
                                              t: Timer)
    requires Legal(m, log, isOneshot, now)
    requires t in m ==> m[t] > now
    ensures !Visited(log, t)
  {
    if |log| > 0 {
      var n := |log| - 1;
      LegalPrefix(m, log, isOneshot, now, n);
      NotDueIsNotVisited(m, log[..n], isOneshot, now, t);
      UnvisitedIsUntouched(m, log[..n], isOneshot, t);
      assert DueFirst(Replay(m, log[..n], isOneshot), log[n].timer, now);
      forall i | 0 <= i < |log| ensures log[i].timer != t {
        assert i < n ==> log[..n][i] == log[i];
      }
    }
  }

  // A pass visits exactly the timers that were due when it began, and leaves all others as they were.
  lemma {:induction false} VisitsExactlyTheDueTimers(m: Deadlines, log: seq<Visit>, isOneshot: Timer -> bool,
                                                     now: int, t: Timer)
    requires Pass(m, log, isOneshot, now)
    ensures Visited(log, t) <==> t in m && m[t] <= now
    ensures t in m && m[t] > now ==> t in Replay(m, log, isOneshot) && Replay(m, log, isOneshot)[t] == m[t]
    ensures Replay(m, log, isOneshot).Keys <= m.Keys
  {
    forall u ensures (u in m ==> m[u] > now) ==> !Visited(log, u) {
      if u in m ==> m[u] > now { NotDueIsNotVisited(m, log, isOneshot, now, u); }
    }
    forall u ensures u in Replay(m, log, isOneshot) ==> u in m {
      if !Visited(log, u) { UnvisitedIsUntouched(m, log, isOneshot, u); }
    }
    if !Visited(log, t) { UnvisitedIsUntouched(m, log, isOneshot, t); }
  }

  // ---------- How often a timer is visited ----------

  predicate VisitedOnce(log: seq<Visit>) {
    forall i, j :: 0 <= i < j < |log| ==> log[i].timer != log[j].timer
  }

  // The visit puts the timer back with a deadline that is due at once.
  predicate Repeats(v: Visit, isOneshot: Timer -> bool, now: int) {
    !Drops(v, isOneshot) && NextDeadline(v) <= now
  }

  lemma {:induction false} AfterVisit(m: Deadlines, log: seq<Visit>, isOneshot: Timer -> bool, now: int, i: nat)
    requires Pass(m, log, isOneshot, now) && i < |log|
    ensures Visited(log[i + 1..], log[i].timer) <==> Repeats(log[i], isOneshot, now)
  {
    var after := Replay(m, log[..i + 1], isOneshot);
    assert log[..i + 1][..i] == log[..i];
    PassSuffix(m, log, isOneshot, now, i + 1);
    VisitsExactlyTheDueTimers(after, log[i + 1..], isOneshot, now, log[i].timer);
  }

  // "Every due timer fires once in a pass" holds exactly when no visited periodic timer is due again at once.
  lemma {:induction false} VisitedOnceIffNoneRepeats(m: Deadlines, log: seq<Visit>, isOneshot: Timer -> bool, now: int)
    requires Pass(m, log, isOneshot, now)
    ensures VisitedOnce(log) <==> forall i :: 0 <= i < |log| ==> !Repeats(log[i], isOneshot, now)
  {
    forall i | 0 <= i < |log| ensures Visited(log[i + 1..], log[i].timer) <==> Repeats(log[i], isOneshot, now) {
      AfterVisit(m, log, isOneshot, now, i);
    }
    if VisitedOnce(log) {
      forall i | 0 <= i < |log| ensures !Visited(log[i + 1..], log[i].timer) {
        var rest := log[i + 1..];
        forall j | 0 <= j < |rest| ensures rest[j].timer != log[i].timer {
          assert rest[j] == log[i + 1 + j];
        }
      }
    } else {
      var i, j :| 0 <= i < j < |log| && log[i].timer == log[j].timer;
      assert log[i + 1..][j - i - 1] == log[j];
      assert Visited(log[i + 1..], log[i].timer);
    }
  }

  predicate FoundUncancelled(log: seq<Visit>, t: Timer) {
    exists i :: 0 <= i < |log| && log[i].timer == t && !log[i].cancelled
  }

  lemma {:induction false} FiringsAppend(log: seq<Visit>, t: Timer)
    requires |log| > 0
    ensures var v := log[|log| - 1];
      multiset(Fired(log))[t] == multiset(Fired(log[..|log| - 1]))[t] + if v.timer == t && !v.cancelled then 1 else 0
  { }

  lemma {:induction false} UnvisitedIsNotFired(log: seq<Visit>, t: Timer)
    requires !Visited(log, t)
    ensures multiset(Fired(log))[t] == 0
  {
    if |log| > 0 {
      assert !Visited(log[..|log| - 1], t);
      UnvisitedIsNotFired(log[..|log| - 1], t);
      FiringsAppend(log, t);
    }
  }

  lemma {:induction false} FoundBefore(log: seq<Visit>, t: Timer)
    requires |log| > 0 && log[|log| - 1].timer != t
    ensures FoundUncancelled(log, t) <==> FoundUncancelled(log[..|log| - 1], t)
  {
    var front := log[..|log| - 1];
    if FoundUncancelled(log, t) {
      var i :| 0 <= i < |log| && log[i].timer == t && !log[i].cancelled;
      assert front[i] == log[i];
    }
  }

  lemma {:induction false} FoundLast(log: seq<Visit>, t: Timer)
    requires |log| > 0 && log[|log| - 1].timer == t && VisitedOnce(log)
    ensures FoundUncancelled(log, t) <==> !log[|log| - 1].cancelled
    ensures !Visited(log[..|log| - 1], t)
  {
    var front := log[..|log| - 1];
    forall i | 0 <= i < |front| ensures front[i].timer != t { assert front[i] == log[i]; }
    if FoundUncancelled(log, t) {
      var i :| 0 <= i < |log| && log[i].timer == t && !log[i].cancelled;
      assert i == |log| - 1;
    }
  }

  lemma {:induction false} VisitedOnceFiresOnce(log: seq<Visit>, t: Timer)
    requires VisitedOnce(log)
    ensures multiset(Fired(log))[t] == if FoundUncancelled(log, t) then 1 else 0
  {
    if |log| > 0 {
      FiringsAppend(log, t);
      if log[|log| - 1].timer == t {
        FoundLast(log, t);
        UnvisitedIsNotFired(log[..|log| - 1], t);
      } else {
        FoundBefore(log, t);
        VisitedOnceFiresOnce(log[..|log| - 1], t);
      }
    }
  }

  // A pass in which no timer is due again at once fires exactly the due, uncancelled timers, each once.
  lemma {:induction false} DueTimersFireOnce(m: Deadlines, log: seq<Visit>, isOneshot: Timer -> bool, now: int,
                                             t: Timer)
    requires Pass(m, log, isOneshot, now)
    requires forall i :: 0 <= i < |log| ==> !Repeats(log[i], isOneshot, now)
    ensures multiset(Fired(log))[t] == if FoundUncancelled(log, t) then 1 else 0
    ensures FoundUncancelled(log, t) ==> t in m && m[t] <= now
    ensures t in m && m[t] <= now && !FoundUncancelled(log, t) ==> t !in Replay(m, log, isOneshot)
  {
    VisitedOnceIffNoneRepeats(m, log, isOneshot, now);
    VisitedOnceFiresOnce(log, t);
    VisitsExactlyTheDueTimers(m, log, isOneshot, now, t);
    if t in m && m[t] <= now && !FoundUncancelled(log, t) {
      var i :| 0 <= i < |log| && log[i].timer == t;
      AfterVisit(m, log, isOneshot, now, i);
      LastVisitDecides(m, log, isOneshot, now, i);
    }
  }

  // On a clock that does not run back, a timer is due again at once just when its period is zero and the
  // clock has not moved since the pass began.
  lemma {:induction false} RepeatsOnlyAtZeroPeriod(v: Visit, isOneshot: Timer -> bool, now: int)
    requires v.clock >= now
    ensures NextDeadline(v) <= now <==> v.frequency == 0 && v.clock == now
    ensures Repeats(v, isOneshot, now) <==> !Drops(v, isOneshot) && v.frequency == 0 && v.clock == now
  {
    assert v.frequency > 0 ==> TICKS_PER_MILLISECOND * v.frequency >= 1;
  }

  // So on readings of such a clock: a pass visits no timer twice if and only if every visited timer is one-shot,
  // cancelled, has a period, or is visited after the clock has moved.
  lemma {:induction false} VisitedOnceIffPeriodOrTick(m: Deadlines, log: seq<Visit>, isOneshot: Timer -> bool, now: int,
                                                      cancelled: nat -> bool, frequency: nat -> nat, clock: nat -> int)
    requires Pass(m, log, isOneshot, now) && Readings(log, cancelled, frequency, clock)
    requires forall k :: clock(k) >= now
    ensures VisitedOnce(log) <==>
            forall k :: 0 <= k < |log| ==> isOneshot(log[k].timer) || cancelled(k) || frequency(k) > 0 || clock(k) > now
  {
    VisitedOnceIffNoneRepeats(m, log, isOneshot, now);
    forall k | 0 <= k < |log|
      ensures Repeats(log[k], isOneshot, now) <==>
              !isOneshot(log[k].timer) && !cancelled(k) && frequency(k) == 0 && clock(k) == now
    {
      RepeatsOnlyAtZeroPeriod(log[k], isOneshot, now);
    }
  }

  // With periods of at least a millisecond, a pass visits each due timer once, fires it once unless it is
  // cancelled, and fires nothing else.
  lemma {:induction false} PeriodsGiveOneFiring(m: Deadlines, log: seq<Visit>, isOneshot: Timer -> bool, now: int,
                                                cancelled: nat -> bool, frequency: nat -> nat, clock: nat -> int,
                                                t: Timer)
    requires Pass(m, log, isOneshot, now) && Readings(log, cancelled, frequency, clock)
    requires forall k :: clock(k) >= now && frequency(k) >= 1
    ensures VisitedOnce(log) && (Visited(log, t) <==> t in m && m[t] <= now)
    ensures multiset(Fired(log))[t] == if FoundUncancelled(log, t) then 1 else 0
    ensures (forall k :: !cancelled(k)) ==> multiset(Fired(log))[t] == if t in m && m[t] <= now then 1 else 0
  {
    VisitedOnceIffPeriodOrTick(m, log, isOneshot, now, cancelled, frequency, clock);
    VisitsExactlyTheDueTimers(m, log, isOneshot, now, t);
    VisitedOnceFiresOnce(log, t);
    if forall k :: !cancelled(k) {
      assert FoundUncancelled(log, t) <==> Visited(log, t);
    }
  }

  // A pass that fires one periodic timer twice.
  lemma {:induction false} ZeroPeriodFiresTwice(t: Timer, now: int)
    ensures var isOneshot, log := (u: Timer) => false, [Visit(t, false, 0, now), Visit(t, false, 0, now + 1)];
      Pass(map[t := now], log, isOneshot, now) && Fired(log) == [t, t]
  {
    var isOneshot, log := (u: Timer) => false, [Visit(t, false, 0, now), Visit(t, false, 0, now + 1)];
    var m := map[t := now];
    assert log[..0] == [] && log[..1] == [log[0]] && log[..2] == log;
    assert log[..1][..0] == [];
    assert Replay(m, log[..1], isOneshot) == m[t := now];
    assert Replay(m, log, isOneshot) == Replay(m, log[..1], isOneshot)[t := now + 1];
    assert Fired(log[..1]) == [t];
  }

  // While the clock stands still the loop goes on firing it: any number of visits is legal, and it stays due.
  lemma {:induction false} FrozenClockSpins(t: Timer, now: int, k: nat)
    ensures var isOneshot, log := (u: Timer) => false, seq(k, i => Visit(t, false, 0, now));
      Legal(map[t := now], log, isOneshot, now) && Replay(map[t := now], log, isOneshot) == map[t := now]
  {
    var isOneshot, log := (u: Timer) => false, seq(k, i => Visit(t, false, 0, now));
    forall i: nat | i <= k ensures Replay(map[t := now], log[..i], isOneshot) == map[t := now] {
      FrozenReplay(t, now, log[..i], isOneshot);
    }
    assert log[..k] == log;
  }

  lemma {:induction false} FrozenReplay(t: Timer, now: int, log: seq<Visit>, isOneshot: Timer -> bool)
    requires !isOneshot(t) && forall i :: 0 <= i < |log| ==> log[i] == Visit(t, false, 0, now)
    ensures Replay(map[t := now], log, isOneshot) == map[t := now]
  {
    if |log| > 0 { FrozenReplay(t, now, log[..|log| - 1], isOneshot); }
  }

  // The firings are the visits that found the timer not cancelled, in the order of the visits: firing i is visit at[i].
  predicate Follow(log: seq<Visit>, fired: seq<Timer>, at: seq<nat>) {
    && |at| == |fired|
    && (forall i, j :: 0 <= i < j < |at| ==> at[i] < at[j])
    && (forall i :: 0 <= i < |at| ==> at[i] < |log| && !log[at[i]].cancelled && log[at[i]].timer == fired[i])
    && (forall k :: 0 <= k < |log| && !log[k].cancelled ==> k in at)
  }

  lemma {:induction false} FollowCancelled(log: seq<Visit>, fired: seq<Timer>, at: seq<nat>, v: Visit)
    requires Follow(log, fired, at) && v.cancelled
    ensures Follow(log + [v], fired, at)
  {
    var log' := log + [v];
    forall k | 0 <= k < |log'| && !log'[k].cancelled ensures k in at { assert log'[k] == log[k]; }
  }

  lemma {:induction false} FollowFired(log: seq<Visit>, fired: seq<Timer>, at: seq<nat>, v: Visit)
    requires Follow(log, fired, at) && !v.cancelled
    ensures Follow(log + [v], fired + [v.timer], at + [|log|])
  {
    var log', at' := log + [v], at + [|log|];
    forall k | 0 <= k < |log'| && !log'[k].cancelled ensures k in at' {
      if k < |log| { assert log'[k] == log[k] && k in at; } else { assert at'[|at|] == k; }
    }
  }

  lemma {:induction false} FiringsFollowVisits(log: seq<Visit>) returns (at: seq<nat>)
    ensures Follow(log, Fired(log), at)
  {
    if |log| == 0 {
      at := [];
    } else {
      var front, v := log[..|log| - 1], log[|log| - 1];
      assert log == front + [v];
      at := FiringsFollowVisits(front);
      if v.cancelled {
        FollowCancelled(front, Fired(front), at, v);
        assert Fired(log) == Fired(front);
      } else {
        FollowFired(front, Fired(front), at, v);
        assert Fired(log) == Fired(front) + [v.timer];
        at := at + [|front|];
      }
    }
  }

  // ---------- The order of the visits, and what they leave ----------

  lemma {:induction false} DeadlineAfterStep(m: Deadlines, v: Visit, isOneshot: Timer -> bool, now: int, u: Timer)
    requires v.clock >= now && u in Step(m, v, isOneshot)
    ensures u == v.timer ==> Step(m, v, isOneshot)[u] >= now
    ensures u != v.timer ==> u in m && Step(m, v, isOneshot)[u] == m[u]
  {
    assert TICKS_PER_MILLISECOND * v.frequency >= 0;
  }

  lemma {:induction false} LaterDeadlinesAreNotEarlier(m: Deadlines, log: seq<Visit>, isOneshot: Timer -> bool,
                                                       now: int, i: nat, j: nat, u: Timer)
    requires Legal(m, log, isOneshot, now) && i < j <= |log|
    requires forall k :: 0 <= k < |log| ==> log[k].clock >= now
    requires u in Replay(m, log[..j], isOneshot)
    ensures Due(m, log, isOneshot, now, i) <= Replay(m, log[..j], isOneshot)[u]
    decreases j
  {
    var before, v := Replay(m, log[..j - 1], isOneshot), log[j - 1];
    assert log[..j][..j - 1] == log[..j - 1] && log[..j][j - 1] == v;
    assert DueFirst(Replay(m, log[..i], isOneshot), log[i].timer, now);
    DeadlineAfterStep(before, v, isOneshot, now, u);
    if u != v.timer && j - 1 > i {
      LaterDeadlinesAreNotEarlier(m, log, isOneshot, now, i, j - 1, u);
    }
  }

  // Timers are visited in the order of their deadlines.
  lemma {:induction false} VisitedInDeadlineOrder(m: Deadlines, log: seq<Visit>, isOneshot: Timer -> bool, now: int,
                                                  i: nat, j: nat)
    requires Legal(m, log, isOneshot, now) && i < j < |log|
    requires forall k :: 0 <= k < |log| ==> log[k].clock >= now
    ensures Due(m, log, isOneshot, now, i) <= Due(m, log, isOneshot, now, j) <= now
  {
    assert DueFirst(Replay(m, log[..j], isOneshot), log[j].timer, now);
    LaterDeadlinesAreNotEarlier(m, log, isOneshot, now, i, j, log[j].timer);
  }

  // The last visit of a timer decides: it is dropped, or waits until one period past the clock.
  lemma {:induction false} LastVisitDecides(m: Deadlines, log: seq<Visit>, isOneshot: Timer -> bool, now: int, i: nat)
    requires Pass(m, log, isOneshot, now) && i < |log| && !Visited(log[i + 1..], log[i].timer)
    ensures var after, t := Replay(m, log, isOneshot), log[i].timer;
      if isOneshot(t) || log[i].cancelled then t !in after
      else t in after && after[t] == log[i].clock + 1_000_000 * log[i].frequency > now
  {
    assert log[..i + 1][..i] == log[..i];
    ReplaySplit(m, log, isOneshot, i + 1);
    UnvisitedIsUntouched(Replay(m, log[..i + 1], isOneshot), log[i + 1..], isOneshot, log[i].timer);
  }
}
