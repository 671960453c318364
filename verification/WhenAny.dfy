/**
  `when_any`: one coroutine registers a `when_any_context` with n results, one after
  the other, while their n producers complete. Each round of `when_any` on the same
  results creates a new context; a slow producer may still hold an older one.
  Every action is one atomic step of `when_any_awaitable`, of `result_state_base` or of
  `when_any_context`, or one write of a consumer context.
 */
module WhenAny {
  import opened ProducerConsumer

  // m_status: k_processing, k_done_processing or the address of the completed input.
  datatype Status = Processing | DoneProcessing | Done(input: nat)

  // The consumer context of an input: empty or holding the context of a round.
  datatype Slot = NoContext | Context(round: nat)

  // The producer of one input. `tries` counts the iterations of try_resume's loop.
  datatype Worker =
    | Working                                             // complete_producer not called yet
    | Reading                                             // exchanged consumer_set, about to read the context
    | Loading(round: nat, tries: nat)                     // top of try_resume's loop
    | Swapping(round: nat, seen: Status, tries: nat)      // before its compare-exchange
    | Resuming(round: nat)                                // about to call m_coro_handle()
    | Finished

  // any_result_finished; result_state_base::when_any; resume_inline
  datatype RegisterStage = Check | LoadPc | WriteSlot | SwapPc | InlineLoad | InlineSwap

  // try_rewind_consumer
  datatype RewindStage = LoadSet | SwapIdle | ClearSlot

  datatype Place =
    | Register(i: nat, g: RegisterStage)                  // await_suspend's loop
    | FinishSwap                                          // finish_processing
    | Asleep
    | ReadStatus                                          // completed_result
    | Rewind(i: nat, status: Status, found: int, w: RewindStage)   // await_resume's loop
    | Returned(index: int)

  datatype State = State(
    pcs: seq<PcState>,                                    // m_pc_state of each input
    slots: seq<Slot>,                                     // consumer context of each input
    workers: seq<Worker>,
    rounds: seq<Status>,                                  // m_status of the context of each round
    continued: seq<nat>,                                  // how often the coroutine went on, per round
    lost: set<nat>,                                       // inputs whose registration lost in this round
    at: Place)

  datatype Action =
    | Coroutine                                           // the next step of the coroutine
    | Again                                               // a new when_any on the same results
    | Complete(i: nat)                                    // exchange in complete_producer
    | Producer(i: nat)                                    // the next step of try_resume

  function Size(s: State): nat { |s.pcs| }

  // The producer has a copy of the context of some round.
  predicate Armed(w: Worker) {
    w.Loading? || w.Swapping? || w.Resuming?
  }

  predicate Shaped(s: State) {
    && |s.pcs| == |s.slots| == |s.workers|
    && |s.rounds| == |s.continued| > 0
    && (s.at.Register? || s.at.Rewind? ==> s.at.i < Size(s))
    && (forall i :: 0 <= i < |s.slots| && s.slots[i].Context? ==> s.slots[i].round < |s.rounds|)
    && (forall i :: 0 <= i < |s.workers| && Armed(s.workers[i]) ==> s.workers[i].round < |s.rounds|)
  }

  function Round(s: State): nat
    requires |s.rounds| > 0
  {
    |s.rounds| - 1
  }

  function Current(s: State): Status
    requires |s.rounds| > 0
  {
    s.rounds[|s.rounds| - 1]
  }

  function Initial(n: nat): (s: State)
    ensures Shaped(s) && Size(s) == n
  {
    State(seq(n, i => Idle), seq(n, i => NoContext), seq(n, i => Working), [Processing], [0], {}, Loop(0, n))
  }

  function Run(s: State, actions: seq<Action>): (t: State)
    requires Shaped(s)
    ensures Shaped(t) && Size(t) == Size(s)
  {
    if |actions| == 0 then s
    else Next(Run(s, actions[..|actions| - 1]), actions[|actions| - 1])
  }

  function Next(s: State, a: Action): (t: State)
    requires Shaped(s)
    ensures Shaped(t) && Size(t) == Size(s)
  {
    match a
    case Coroutine => Step(s)
    case Again =>
      if s.at.Returned? then
        s.(rounds := s.rounds + [Processing], continued := s.continued + [0], lost := {}, at := Loop(0, Size(s)))
      else s
    case Complete(i) => if i < Size(s) && s.workers[i] == Working then Publish(s, i) else s
    case Producer(i) => if i < Size(s) then TryResume(s, i) else s
  }

  // The coroutine goes on past the suspension point: await_suspend returned false, or it was resumed.
  function GoOn(s: State, round: nat): State
    requires round < |s.continued|
  {
    s.(continued := s.continued[round := s.continued[round] + 1], at := ReadStatus)
  }

  function SetStatus(s: State, round: nat, status: Status): State
    requires round < |s.rounds|
  {
    s.(rounds := s.rounds[round := status])
  }

  function Loop(i: nat, n: nat): Place {
    if i < n then Register(i, Check) else FinishSwap
  }

  function Step(s: State): (t: State)
    requires Shaped(s)
    ensures Shaped(t) && Size(t) == Size(s)
  {
    match s.at
    case Register(i, g) => RegisterStep(s, i, g)
    case FinishSwap =>
      if Current(s) == Processing then SetStatus(s, Round(s), DoneProcessing).(at := Asleep) else GoOn(s, Round(s))
    case ReadStatus => s.(at := RewindFrom(0, Current(s), -1, Size(s)))
    case Rewind(i, _, _, w) => RewindStep(s, i, w)
    case _ => s
  }

  function RegisterStep(s: State, i: nat, g: RegisterStage): (t: State)
    requires Shaped(s) && i < Size(s)
    ensures Shaped(t) && Size(t) == Size(s)
  {
    var k := Round(s);
    match g
    case Check => if Current(s) != Processing then GoOn(s, k) else s.(at := Register(i, LoadPc))
    case LoadPc => s.(at := Register(i, if s.pcs[i] == ProducerDone then InlineLoad else WriteSlot))
    case WriteSlot => s.(slots := s.slots[i := Context(k)], at := Register(i, SwapPc))
    case SwapPc =>
      if s.pcs[i] == Idle then s.(pcs := s.pcs[i := ConsumerSet], at := Loop(i + 1, Size(s)))
      else s.(lost := s.lost + {i}, at := Loop(i + 1, Size(s)))   // the caller sees the value loaded before
    case InlineLoad => if Current(s) != Processing then GoOn(s, k) else s.(at := Register(i, InlineSwap))
    case InlineSwap => GoOn(if Current(s) == Processing then SetStatus(s, k, Done(i)) else s, k)
  }

  function RewindFrom(i: nat, status: Status, found: int, n: nat): Place {
    if i < n then Rewind(i, status, found, LoadSet) else Returned(found)
  }

  function RewindStep(s: State, i: nat, w: RewindStage): (t: State)
    requires Shaped(s) && i < Size(s) && s.at.Rewind?
    ensures Shaped(t) && Size(t) == Size(s)
  {
    // After the rewind, the loop compares addresses and goes to the next input.
    var next := RewindFrom(i + 1, s.at.status, if s.at.status == Done(i) then i else s.at.found, Size(s));
    match w
    case LoadSet => s.(at := if s.pcs[i] == ConsumerSet then s.at.(w := SwapIdle) else next)
    case SwapIdle =>
      if s.pcs[i] == ConsumerSet then s.(pcs := s.pcs[i := Idle], at := s.at.(w := ClearSlot)) else s.(at := next)
    case ClearSlot => s.(slots := s.slots[i := NoContext], at := next)
  }

  function Publish(s: State, i: nat): (t: State)
    requires Shaped(s) && i < Size(s)
    ensures Shaped(t) && Size(t) == Size(s)
  {
    var w := if s.pcs[i] == ConsumerSet then Reading else Finished;
    s.(pcs := s.pcs[i := ProducerDone], workers := s.workers[i := w])
  }

  function TryResume(s: State, i: nat): (t: State)
    requires Shaped(s) && i < Size(s)
    ensures Shaped(t) && Size(t) == Size(s)
  {
    match s.workers[i]
    case Reading =>
      s.(workers := s.workers[i := if s.slots[i].Context? then Loading(s.slots[i].round, 0) else Finished])
    case Loading(r, tries) =>
      s.(workers := s.workers[i := if s.rounds[r].Done? then Finished else Swapping(r, s.rounds[r], tries)])
    case Swapping(r, seen, tries) =>
      if s.rounds[r] == seen then
        SetStatus(s, r, Done(i)).(workers := s.workers[i := if seen == DoneProcessing then Resuming(r) else Finished])
      else
        s.(workers := s.workers[i := if seen == DoneProcessing then Finished else Loading(r, tries + 1)])
    case Resuming(r) => GoOn(s, r).(workers := s.workers[i := Finished])
    case _ => s
  }

  // ---------- Invariant ----------

  // Inputs below Registered have been visited by this round's registration loop; those
  // below Cleared are no longer registered.
  function Registered(s: State): nat {
    if s.at.Register? then s.at.i else Size(s)
  }

  function Cleared(s: State): nat {
    match s.at
    case Rewind(i, _, _, w) => if w == ClearSlot then i + 1 else i
    case Returned(_) => Size(s)
    case _ => 0
  }

  predicate Registering(p: Place) {
    p.Register? || p.FinishSwap?
  }

  // The producer is on its way to the context of this round.
  predicate Holds(w: Worker, slot: Slot, round: nat) {
    if w == Reading then slot == Context(round) else Armed(w) && w.round == round
  }

  predicate SlotInv(s: State, i: nat)
    requires Shaped(s) && i < Size(s)
  {
    && (s.pcs[i] == Idle || s.pcs[i] == ConsumerSet || s.pcs[i] == ProducerDone)
    && (s.workers[i] == Working <==> s.pcs[i] != ProducerDone)
    && (s.pcs[i] == ConsumerSet ==> s.slots[i] == Context(Round(s)) && Cleared(s) <= i < Registered(s))
    && (s.pcs[i] == Idle ==>
          || s.slots[i] == NoContext || s.at == Register(i, SwapPc)
          || (s.at.Rewind? && s.at.i == i && s.at.w == ClearSlot))
    && (s.at == Register(i, WriteSlot) ==> s.slots[i] == NoContext)
    && (s.at == Register(i, SwapPc) ==> s.slots[i] == Context(Round(s)))
    && (s.workers[i] == Reading ==>
          && s.slots[i].Context? && s.at != Register(i, WriteSlot) && s.at != Register(i, SwapPc)
          && !(s.at.Rewind? && s.at.i == i && s.at.w == ClearSlot))
  }

  predicate WorkerInv(s: State, i: nat)
    requires Shaped(s) && i < Size(s)
  {
    match s.workers[i]
    case Loading(r, tries) => tries == 0 || (tries == 1 && s.rounds[r] != Processing)
    case Swapping(r, seen, tries) =>
      && tries <= 1
      && !seen.Done?
      && (seen == Processing ==> tries == 0)
      && (seen == DoneProcessing ==> s.rounds[r] != Processing)
    case Resuming(r) => r == Round(s) && s.at == Asleep && s.rounds[r] == Done(i)
    case _ => true
  }

  // Until a result is reported, every input visited so far is registered, or its producer is on
  // its way to this round's context, or its registration was lost.
  predicate Covered(s: State, i: nat)
    requires Shaped(s) && i < Size(s)
  {
    i in s.lost || s.pcs[i] == ConsumerSet || Holds(s.workers[i], s.slots[i], Round(s))
  }

  predicate CoverInv(s: State, i: nat)
    requires Shaped(s) && i < Size(s)
  {
    && ((Registering(s.at) || s.at == Asleep) && i < Registered(s) && !Current(s).Done? ==> Covered(s, i))
    && (i in s.lost ==> i < Registered(s) && s.pcs[i] == ProducerDone && !Holds(s.workers[i], s.slots[i], Round(s)))
    && (Holds(s.workers[i], s.slots[i], Round(s)) ==> i < Registered(s))
  }

  predicate Input(s: State, i: nat)
    requires Shaped(s) && i < Size(s)
  {
    SlotInv(s, i) && WorkerInv(s, i) && CoverInv(s, i)
  }

  predicate FinishedInput(s: State, status: Status)
    requires Shaped(s)
  {
    status.Done? && status.input < Size(s) && s.pcs[status.input] == ProducerDone
  }

  // Contexts of earlier rounds are final.
  predicate PastInv(s: State)
    requires Shaped(s)
  {
    forall r :: 0 <= r < Round(s) ==> FinishedInput(s, s.rounds[r]) && s.continued[r] == 1
  }

  predicate RoundInv(s: State)
    requires Shaped(s)
  {
    var k := Round(s);
    && (Current(s).Done? ==> FinishedInput(s, Current(s)) && Current(s).input !in s.lost)
    && s.continued[k] == (if Registering(s.at) || s.at == Asleep then 0 else 1)
    && (Registering(s.at) ==> Current(s) != DoneProcessing && (Current(s).Done? ==> Current(s).input < Registered(s)))
    && (s.at == Asleep ==>
          Current(s) == DoneProcessing || (Current(s).Done? && s.workers[Current(s).input] == Resuming(k)))
    && (!Registering(s.at) && s.at != Asleep ==> Current(s).Done?)
    && (s.at.Register? && (s.at.g == InlineLoad || s.at.g == InlineSwap) ==> s.pcs[s.at.i] == ProducerDone)
    && (s.at.Rewind? ==>
          && s.at.status == Current(s)
          && s.at.found == (if Current(s).input < s.at.i then Current(s).input else -1))
    && (s.at.Returned? ==> s.at.index == Current(s).input)
  }

  predicate Inv(s: State) {
    && Shaped(s)
    && Size(s) > 0
    && (forall i :: 0 <= i < Size(s) ==> Input(s, i))
    && (forall i :: i in s.lost ==> i < Size(s))
    && PastInv(s)
    && RoundInv(s)
  }

  lemma {:induction false} RegisterKeepsOwnInput(s: State)
    requires Shaped(s) && s.at.Register? && Input(s, s.at.i) && RoundInv(s)
    ensures Input(RegisterStep(s, s.at.i, s.at.g), s.at.i)
  {
  }

  lemma {:induction false} RegisterKeepsOtherInput(s: State, i: nat)
    requires Shaped(s) && i < Size(s) && s.at.Register? && i != s.at.i && Input(s, i) && RoundInv(s)
    ensures Input(RegisterStep(s, s.at.i, s.at.g), i)
  {
  }

  lemma {:induction false} RegisterKeepsInput(s: State, i: nat)
    requires Inv(s) && i < Size(s) && s.at.Register?
    ensures Input(RegisterStep(s, s.at.i, s.at.g), i)
  {
    assert Input(s, i);
    if i == s.at.i { RegisterKeepsOwnInput(s); } else { RegisterKeepsOtherInput(s, i); }
  }

  lemma {:induction false} RegisterKeepsRounds(s: State)
    requires Inv(s) && s.at.Register?
    ensures var t := RegisterStep(s, s.at.i, s.at.g); PastInv(t) && RoundInv(t)
  {
    assert Input(s, s.at.i);
  }

  lemma {:induction false} RewindKeepsOwnInput(s: State)
    requires Shaped(s) && s.at.Rewind? && Input(s, s.at.i) && RoundInv(s)
    ensures Input(RewindStep(s, s.at.i, s.at.w), s.at.i)
  {
  }

  lemma {:induction false} RewindKeepsOtherInput(s: State, i: nat)
    requires Shaped(s) && i < Size(s) && s.at.Rewind? && i != s.at.i && Input(s, i) && RoundInv(s)
    ensures Input(RewindStep(s, s.at.i, s.at.w), i)
  {
  }

  lemma {:induction false} RewindKeepsInput(s: State, i: nat)
    requires Inv(s) && i < Size(s) && s.at.Rewind?
    ensures Input(RewindStep(s, s.at.i, s.at.w), i)
  {
    assert Input(s, i);
    if i == s.at.i { RewindKeepsOwnInput(s); } else { RewindKeepsOtherInput(s, i); }
  }

  lemma {:induction false} RewindKeepsRounds(s: State)
    requires Inv(s) && s.at.Rewind?
    ensures var t := RewindStep(s, s.at.i, s.at.w); PastInv(t) && RoundInv(t)
  {
  }

  lemma {:induction false} PhaseChangeKeepsInput(s: State, i: nat)
    requires Inv(s) && i < Size(s) && !s.at.Register? && !s.at.Rewind?
    ensures Input(Step(s), i)
  {
    assert Input(s, i);
  }

  lemma {:induction false} PhaseChangeKeepsRounds(s: State)
    requires Inv(s) && !s.at.Register? && !s.at.Rewind?
    ensures PastInv(Step(s)) && RoundInv(Step(s))
  {
  }

  lemma {:induction false} StepKeepsInv(s: State)
    requires Inv(s)
    ensures Inv(Step(s))
  {
    if s.at.Register? {
      forall i | 0 <= i < Size(s) ensures Input(Step(s), i) { RegisterKeepsInput(s, i); }
      RegisterKeepsRounds(s);
    } else if s.at.Rewind? {
      forall i | 0 <= i < Size(s) ensures Input(Step(s), i) { RewindKeepsInput(s, i); }
      RewindKeepsRounds(s);
    } else {
      forall i | 0 <= i < Size(s) ensures Input(Step(s), i) { PhaseChangeKeepsInput(s, i); }
      PhaseChangeKeepsRounds(s);
    }
  }

  lemma {:induction false} PublishKeepsInput(s: State, i: nat, j: nat)
    requires Shaped(s) && i < Size(s) && j < Size(s) && s.workers[i] == Working && Input(s, i) && Input(s, j)
    ensures Input(Publish(s, i), j)
  {
  }

  lemma {:induction false} PublishKeepsInv(s: State, i: nat)
    requires Inv(s) && i < Size(s) && s.workers[i] == Working
    ensures Inv(Publish(s, i))
  {
    assert Input(s, i);
    forall j | 0 <= j < Size(s) ensures Input(Publish(s, i), j) {
      assert Input(s, j);
      PublishKeepsInput(s, i, j);
    }
  }

  lemma {:induction false} TryResumeKeepsOwnInput(s: State, i: nat)
    requires Inv(s) && i < Size(s)
    ensures Input(TryResume(s, i), i)
  {
    assert Input(s, i);
  }

  lemma {:induction false} TryResumeKeepsOtherWorker(s: State, i: nat, j: nat)
    requires Inv(s) && i < Size(s) && j < Size(s) && i != j
    ensures WorkerInv(TryResume(s, i), j)
  {
    assert Input(s, i);
    assert Input(s, j);
  }

  lemma {:induction false} TryResumeKeepsOtherSlot(s: State, i: nat, j: nat)
    requires Shaped(s) && i < Size(s) && j < Size(s) && i != j
    requires WorkerInv(s, i) && SlotInv(s, j)
    ensures SlotInv(TryResume(s, i), j)
  {
  }

  lemma {:induction false} TryResumeKeepsOtherCover(s: State, i: nat, j: nat)
    requires Shaped(s) && i < Size(s) && j < Size(s) && i != j
    requires WorkerInv(s, i) && CoverInv(s, j)
    ensures CoverInv(TryResume(s, i), j)
  {
  }

  lemma {:induction false} TryResumeKeepsOtherInput(s: State, i: nat, j: nat)
    requires Inv(s) && i < Size(s) && j < Size(s) && i != j
    ensures Input(TryResume(s, i), j)
  {
    TryResumeKeepsOtherWorker(s, i, j);
    assert Input(s, i) && Input(s, j);
    TryResumeKeepsOtherSlot(s, i, j);
    TryResumeKeepsOtherCover(s, i, j);
  }

  lemma {:induction false} TryResumeKeepsPast(s: State, i: nat)
    requires Shaped(s) && i < Size(s) && PastInv(s) && WorkerInv(s, i)
    ensures PastInv(TryResume(s, i))
  {
  }

  lemma {:induction false} TryResumeKeepsRound(s: State, i: nat)
    requires Shaped(s) && i < Size(s) && RoundInv(s) && Input(s, i)
    ensures RoundInv(TryResume(s, i))
  {
  }

  lemma {:induction false} TryResumeKeepsRounds(s: State, i: nat)
    requires Inv(s) && i < Size(s)
    ensures PastInv(TryResume(s, i)) && RoundInv(TryResume(s, i))
  {
    assert Input(s, i);
    TryResumeKeepsPast(s, i);
    TryResumeKeepsRound(s, i);
  }

  lemma {:induction false} TryResumeKeepsInv(s: State, i: nat)
    requires Inv(s) && i < Size(s)
    ensures Inv(TryResume(s, i))
  {
    forall j | 0 <= j < Size(s) ensures Input(TryResume(s, i), j) {
      if i == j { TryResumeKeepsOwnInput(s, i); } else { TryResumeKeepsOtherInput(s, i, j); }
    }
    TryResumeKeepsRounds(s, i);
  }

  lemma {:induction false} AgainKeepsInv(s: State)
    requires Inv(s)
    ensures Inv(Next(s, Again))
  {
    forall i | 0 <= i < Size(s) ensures Input(Next(s, Again), i) { assert Input(s, i); }
  }

  lemma {:induction false} NextKeepsInv(s: State, a: Action)
    requires Inv(s)
    ensures Inv(Next(s, a))
  {
    match a
    case Coroutine => StepKeepsInv(s);
    case Again => AgainKeepsInv(s);
    case Complete(i) => if i < Size(s) && s.workers[i] == Working { PublishKeepsInv(s, i); }
    case Producer(i) => if i < Size(s) { TryResumeKeepsInv(s, i); }
  }

  lemma {:induction false} RunKeepsInv(n: nat, actions: seq<Action>)
    requires n > 0
    ensures Inv(Run(Initial(n), actions))
  {
    if |actions| == 0 {
      forall i | 0 <= i < n ensures Input(Initial(n), i) { }
    } else {
      RunKeepsInv(n, actions[..|actions| - 1]);
      NextKeepsInv(Run(Initial(n), actions[..|actions| - 1]), actions[|actions| - 1]);
    }
  }

  // ---------- What every interleaving guarantees ----------

  /** In every round the coroutine goes on at most once, and only with an input that is done;
      the index it returns is in range and names such an input. */
  lemma {:induction false} ContinuesOnceWithFinishedInput(n: nat, actions: seq<Action>)
    requires n > 0
    ensures var s := Run(Initial(n), actions);
            && (forall r :: 0 <= r < |s.rounds| ==>
                  s.continued[r] == 0 || (s.continued[r] == 1 && FinishedInput(s, s.rounds[r])))
            && (s.at.Returned? ==>
                  && 0 <= s.at.index < n
                  && s.pcs[s.at.index] == ProducerDone
                  && s.rounds[Round(s)] == Done(s.at.index))
  {
    RunKeepsInv(n, actions);
    RoundsAreSettled(Run(Initial(n), actions));
  }

  lemma {:induction false} RoundsAreSettled(s: State)
    requires Inv(s)
    ensures forall r :: 0 <= r < |s.rounds| ==>
              s.continued[r] == 0 || (s.continued[r] == 1 && FinishedInput(s, s.rounds[r]))
  {
    assert s.continued[Round(s)] <= 1;
  }

  /** A suspended coroutine is about to be resumed, or every input is still registered with it,
      or has a producer on its way to it, or lost its registration to the producer. */
  lemma {:induction false} SuspendedImpliesCovered(n: nat, actions: seq<Action>)
    requires n > 0
    ensures var s := Run(Initial(n), actions);
            s.at == Asleep ==>
              || (exists i :: 0 <= i < n && s.workers[i] == Resuming(Round(s)))
              || (forall i :: 0 <= i < n ==> Covered(s, i))
  {
    RunKeepsInv(n, actions);
    var s := Run(Initial(n), actions);
    forall i | s.at == Asleep && !Current(s).Done? && 0 <= i < n ensures Covered(s, i) { assert Input(s, i); }
  }

  // ---------- The coroutine always settles ----------

  function StageOf(g: RegisterStage): nat {
    match g
    case Check => 5
    case LoadPc => 4
    case WriteSlot => 3
    case SwapPc => 2
    case InlineLoad => 3
    case InlineSwap => 2
  }

  function Distance(s: State): nat
    requires Shaped(s)
  {
    match s.at
    case Register(i, g) => 3 * Size(s) + 4 + 6 * (Size(s) - i - 1) + StageOf(g)
    case FinishSwap => 3 * Size(s) + 4
    case ReadStatus => 3 * Size(s) + 3
    case Rewind(i, _, _, w) =>
      3 * (Size(s) - i - 1) + (match w case LoadSet => 3 case SwapIdle => 2 case ClearSlot => 1)
    case _ => 0
  }

  lemma {:induction false} SettleStep(s: State)
    requires Shaped(s) && s.at != Asleep && !s.at.Returned?
    ensures Distance(Step(s)) < Distance(s)
  {
  }

  function Steps(k: nat): seq<Action> {
    seq(k, i => Coroutine)
  }

  lemma {:induction false} RunLast(s: State, front: seq<Action>, a: Action)
    requires Shaped(s)
    ensures Run(s, front + [a]) == Next(Run(s, front), a)
  {
    assert (front + [a])[..|front|] == front;
  }

  lemma {:induction false} RunCons(s: State, a: Action, rest: seq<Action>)
    requires Shaped(s)
    ensures Run(s, [a] + rest) == Run(Next(s, a), rest)
  {
    if rest == [] {
      assert [a] + rest == [] + [a];
      RunLast(s, [], a);
    } else {
      var front, last := rest[..|rest| - 1], rest[|rest| - 1];
      assert rest == front + [last];
      assert [a] + rest == ([a] + front) + [last];
      RunCons(s, a, front);
      RunLast(s, [a] + front, last);
      RunLast(Next(s, a), front, last);
    }
  }

  lemma {:induction false} CanSettle(s: State) returns (k: nat)
    requires Shaped(s)
    ensures k <= Distance(s) && (Run(s, Steps(k)).at == Asleep || Run(s, Steps(k)).at.Returned?)
    decreases Distance(s)
  {
    if s.at == Asleep || s.at.Returned? {
      k := 0;
    } else {
      SettleStep(s);
      var rest := CanSettle(Step(s));
      RunCons(s, Coroutine, Steps(rest));
      assert [Coroutine] + Steps(rest) == Steps(rest + 1);
      k := rest + 1;
    }
  }

  /** From every reachable state the coroutine alone sleeps or returns after at most 9 n + 9 steps. */
  lemma {:induction false} CoroutineSettles(n: nat, actions: seq<Action>) returns (k: nat)
    requires n > 0
    ensures k <= 9 * n + 9
    ensures var t := Run(Run(Initial(n), actions), Steps(k)); t.at == Asleep || t.at.Returned?
  {
    RunKeepsInv(n, actions);
    k := CanSettle(Run(Initial(n), actions));
  }

  /** A producer completes once: its input is then done, for good, and the producer is on its way to whoever had
      registered. */
  lemma {:induction false} CompleteOutcome(n: nat, actions: seq<Action>, i: nat, a: Action)
    requires n > 0 && i < n
    ensures var s := Run(Initial(n), actions);
            var t := Next(s, Complete(i));
            && t.pcs[i] == ProducerDone
            && (s.pcs[i] == ProducerDone ==> t == s && Next(s, a).pcs[i] == ProducerDone)
            && (s.pcs[i] == ConsumerSet ==> Holds(t.workers[i], t.slots[i], Round(s)))
            && (s.pcs[i] == Idle ==> t.workers[i] == Finished)
  {
    RunKeepsInv(n, actions);
    var s := Run(Initial(n), actions);
    assert Input(s, i);
    NextKeepsInv(s, a);
    assert Input(Next(s, a), i);
    if a.Producer? && a.i < Size(s) { assert TryResume(s, a.i).pcs == s.pcs; }
  }

  /** Once a result is reported the registration loop stops at the next input: nothing more is registered. */
  lemma {:induction false} ReportedResultEndsTheLoop(n: nat, actions: seq<Action>)
    requires n > 0
    ensures var s := Run(Initial(n), actions);
            s.at.Register? && (s.at.g == Check || s.at.g == InlineLoad) && Current(s).Done? ==>
              && Next(s, Coroutine).at == ReadStatus
              && Next(s, Coroutine).pcs == s.pcs && Next(s, Coroutine).slots == s.slots
  {
  }

  /** `when_any` can be called again whenever it has returned, and begins a round of its own. */
  lemma {:induction false} AgainOutcome(n: nat, actions: seq<Action>)
    requires n > 0 && Run(Initial(n), actions).at.Returned?
    ensures var s := Run(Initial(n), actions);
            var t := Next(s, Again);
            t.at == Register(0, Check) && Round(t) == Round(s) + 1 && Current(t) == Processing && t.lost == {}
  {
    RunKeepsInv(n, actions);
  }

  // ---------- Inputs that are ready, and inputs that are lost ----------

  // Round k has begun, input i is done, and the registration loop has not passed it.
  predicate WillReport(s: State, i: nat, k: nat) {
    && Inv(s) && i < Size(s) && k < |s.rounds| && s.pcs[i] == ProducerDone
    && (Round(s) == k ==>
          && s.at != Asleep && s.at != FinishSwap
          && (s.at.Register? ==> s.at.i <= i && (s.at.i == i ==> s.at.g != WriteSlot && s.at.g != SwapPc)))
  }

  lemma {:induction false} ReportStep(s: State, a: Action, i: nat, k: nat)
    requires WillReport(s, i, k)
    ensures WillReport(Next(s, a), i, k)
  {
    NextKeepsInv(s, a);
    if a.Producer? && a.i < Size(s) {
      assert Input(s, a.i);
    } else if a == Coroutine {
      ReportCoroutine(s, i, k);
    }
  }

  lemma {:induction false} ReportCoroutine(s: State, i: nat, k: nat)
    requires WillReport(s, i, k) && Inv(Step(s))
    ensures WillReport(Step(s), i, k)
  {
  }

  lemma {:induction false} ReportRun(s: State, more: seq<Action>, i: nat, k: nat)
    requires WillReport(s, i, k)
    ensures WillReport(Run(s, more), i, k)
  {
    if |more| > 0 {
      ReportRun(s, more[..|more| - 1], i, k);
      ReportStep(Run(s, more[..|more| - 1]), more[|more| - 1], i, k);
    }
  }

  /** If some input is done when a round begins, the coroutine never suspends in that round. */
  lemma {:induction false} ReadyInputIsReported(n: nat, actions: seq<Action>, i: nat, more: seq<Action>)
    requires n > 0 && i < n
    requires Run(Initial(n), actions).at == Register(0, Check) && Run(Initial(n), actions).pcs[i] == ProducerDone
    ensures var s := Run(Initial(n), actions);
            var t := Run(s, more);
            Round(t) == Round(s) ==> t.at != Asleep && t.at != FinishSwap
  {
    RunKeepsInv(n, actions);
    ReportRun(Run(Initial(n), actions), more, i, Round(Run(Initial(n), actions)));
  }

  // Step j of the run is step g of the registration of input i, in round k, with the input done or not.
  predicate StepOf(n: nat, actions: seq<Action>, j: nat, i: nat, k: nat, g: RegisterStage, done: bool)
    requires n > 0 && i < n && j < |actions|
  {
    var p := Run(Initial(n), actions[..j]);
    actions[j] == Coroutine && Round(p) == k && p.at == Register(i, g) && (p.pcs[i] == ProducerDone <==> done)
  }

  predicate Happened(n: nat, actions: seq<Action>, i: nat, k: nat, g: RegisterStage, done: bool)
    requires n > 0 && i < n
  {
    exists j :: 0 <= j < |actions| && StepOf(n, actions, j, i, k, g, done)
  }

  lemma {:induction false} SameStep(n: nat, actions: seq<Action>, j: nat, i: nat, k: nat, g: RegisterStage, done: bool)
    requires n > 0 && i < n && j < |actions| - 1
    ensures StepOf(n, actions[..|actions| - 1], j, i, k, g, done) <==> StepOf(n, actions, j, i, k, g, done)
  {
    assert actions[..|actions| - 1][..j] == actions[..j];
  }

  lemma {:induction false} HappenedBefore(n: nat, actions: seq<Action>, i: nat, k: nat, g: RegisterStage, done: bool)
    requires n > 0 && i < n && |actions| > 0
    ensures Happened(n, actions, i, k, g, done) <==>
            || Happened(n, actions[..|actions| - 1], i, k, g, done)
            || StepOf(n, actions, |actions| - 1, i, k, g, done)
  {
    var front := actions[..|actions| - 1];
    if Happened(n, front, i, k, g, done) {
      var j :| 0 <= j < |front| && StepOf(n, front, j, i, k, g, done);
      SameStep(n, actions, j, i, k, g, done);
    }
    if Happened(n, actions, i, k, g, done) {
      var j :| 0 <= j < |actions| && StepOf(n, actions, j, i, k, g, done);
      if j < |front| { SameStep(n, actions, j, i, k, g, done); }
    }
  }

  lemma {:induction false} NothingHappenedYet(n: nat, actions: seq<Action>, i: nat, k: nat, g: RegisterStage,
                                              done: bool)
    requires n > 0 && i < n && Round(Run(Initial(n), actions)) < k
    ensures !Happened(n, actions, i, k, g, done)
  {
    if |actions| > 0 {
      HappenedBefore(n, actions, i, k, g, done);
      RoundsGrow(Run(Initial(n), actions[..|actions| - 1]), actions[|actions| - 1]);
      NothingHappenedYet(n, actions[..|actions| - 1], i, k, g, done);
    }
  }

  lemma {:induction false} RoundsGrow(s: State, a: Action)
    requires Shaped(s)
    ensures Round(s) <= Round(Next(s, a)) <= Round(s) + 1
    ensures Round(Next(s, a)) > Round(s) <==> a == Again && s.at.Returned?
    ensures Round(Next(s, a)) > Round(s) ==> Next(s, a).lost == {}
  {
    if a == Coroutine { assert Round(Step(s)) == Round(s); }
  }

  lemma {:induction false} LostStep(s: State, a: Action, i: nat)
    requires Shaped(s) && i < Size(s) && Round(Next(s, a)) == Round(s)
    ensures i in Next(s, a).lost <==>
            i in s.lost || (a == Coroutine && s.at == Register(i, SwapPc) && s.pcs[i] != Idle)
  {
    if a.Producer? && a.i < Size(s) { assert TryResume(s, a.i).lost == s.lost; }
  }

  /** An input is lost in a round if and only if the compare-exchange of its registration, in this round, found that its
      producer was done. */
  lemma {:induction false} LostIffSwapFailed(n: nat, actions: seq<Action>, i: nat)
    requires n > 0 && i < n
    ensures var s := Run(Initial(n), actions);
            i in s.lost <==> Happened(n, actions, i, Round(s), SwapPc, true)
  {
    if |actions| > 0 {
      var front, a := actions[..|actions| - 1], actions[|actions| - 1];
      var s := Run(Initial(n), front);
      RunKeepsInv(n, front);
      LostIffSwapFailed(n, front, i);
      RoundsGrow(s, a);
      HappenedBefore(n, actions, i, Round(Next(s, a)), SwapPc, true);
      if Round(Next(s, a)) == Round(s) {
        LostStep(s, a, i);
        assert Input(s, i);
      } else {
        NothingHappenedYet(n, front, i, Round(Next(s, a)), SwapPc, true);
      }
    }
  }

  lemma {:induction false} LoadedStep(s: State, a: Action, i: nat)
    requires Shaped(s) && i < Size(s)
    requires Next(s, a).at == Register(i, WriteSlot) || Next(s, a).at == Register(i, SwapPc)
    ensures Round(Next(s, a)) == Round(s)
    ensures || s.at == Register(i, WriteSlot) || s.at == Register(i, SwapPc)
            || (a == Coroutine && s.at == Register(i, LoadPc) && s.pcs[i] != ProducerDone)
  {
    if a == Coroutine && s.at.Register? { assert Next(s, a) == RegisterStep(s, s.at.i, s.at.g); }
  }

  lemma {:induction false} SwapsOnlyAfterLoad(n: nat, actions: seq<Action>, i: nat)
    requires n > 0 && i < n
    requires var s := Run(Initial(n), actions); s.at == Register(i, WriteSlot) || s.at == Register(i, SwapPc)
    ensures Happened(n, actions, i, Round(Run(Initial(n), actions)), LoadPc, false)
  {
    if |actions| > 0 {
      var front, a := actions[..|actions| - 1], actions[|actions| - 1];
      var s := Run(Initial(n), front);
      LoadedStep(s, a, i);
      HappenedBefore(n, actions, i, Round(s), LoadPc, false);
      if s.at == Register(i, WriteSlot) || s.at == Register(i, SwapPc) { SwapsOnlyAfterLoad(n, front, i); }
    }
  }

  /** So a lost input was not done yet at this round's load of it: its producer completed in between. */
  lemma {:induction false} LostAfterLoad(n: nat, actions: seq<Action>, i: nat)
    requires n > 0 && i < n && i in Run(Initial(n), actions).lost
    ensures var s := Run(Initial(n), actions);
            s.pcs[i] == ProducerDone && Happened(n, actions, i, Round(s), LoadPc, false)
  {
    RunKeepsInv(n, actions);
    assert Input(Run(Initial(n), actions), i);
    var k := Round(Run(Initial(n), actions));
    LostIffSwapFailed(n, actions, i);
    var j :| 0 <= j < |actions| && StepOf(n, actions, j, i, k, SwapPc, true);
    SwapsOnlyAfterLoad(n, actions[..j], i);
    var l :| 0 <= l < |actions[..j]| && StepOf(n, actions[..j], l, i, k, LoadPc, false);
    assert actions[..j][..l] == actions[..l];
    assert StepOf(n, actions, l, i, k, LoadPc, false);
  }

  // The producer of input i completes and runs its try_resume to the end.
  function CompleteInput(i: nat): seq<Action> {
    [Complete(i), Producer(i), Producer(i), Producer(i), Producer(i)]
  }

  lemma {:induction false} RunFive(s: State, a: Action, b: Action, c: Action, d: Action, e: Action)
    requires Shaped(s)
    ensures Run(s, [a, b, c, d, e]) == Next(Next(Next(Next(Next(s, a), b), c), d), e)
  {
    RunLast(s, [], a);
    RunLast(s, [] + [a], b);
    RunLast(s, [] + [a] + [b], c);
    RunLast(s, [] + [a] + [b] + [c], d);
    RunLast(s, [] + [a] + [b] + [c] + [d], e);
    assert [] + [a] + [b] + [c] + [d] + [e] == [a, b, c, d, e];
  }

  // Producer i needs at most `steps` more steps to resume the coroutine of round k.
  predicate Near(s: State, i: nat, k: nat, steps: nat) {
    && Shaped(s) && i < Size(s) && k == Round(s)
    && if steps == 0 then s.at == ReadStatus && s.workers[i] == Finished && Current(s) == Done(i) && s.continued[k] == 1
       else
         && s.at == Asleep && s.continued[k] == 0
         && if steps == 1 then s.workers[i] == Resuming(k) && Current(s) == Done(i)
            else
              && Current(s) == DoneProcessing
              && if steps == 2 then
                   s.workers[i].Swapping? && s.workers[i].round == k && s.workers[i].seen == DoneProcessing
                 else if steps == 3 then s.workers[i].Loading? && s.workers[i].round == k
                 else
                   && steps == 4
                   && (|| (s.workers[i] == Reading && s.slots[i] == Context(k))
                       || (s.workers[i].Swapping? && s.workers[i].round == k && s.workers[i].seen == Processing))
  }

  lemma {:induction false} NearStep(s: State, i: nat, k: nat, steps: nat)
    requires Near(s, i, k, steps)
    ensures Near(Next(s, Producer(i)), i, k, if steps == 0 then 0 else steps - 1)
  {
  }

  lemma {:induction false} NearAfterComplete(s: State, i: nat) returns (steps: nat)
    requires Inv(s) && i < Size(s) && i !in s.lost && s.at == Asleep && Current(s) == DoneProcessing
    ensures Near(Next(s, Complete(i)), i, Round(s), steps) && steps <= 4
  {
    assert Input(s, i);
    steps := if s.workers[i].Loading? then 3
             else if s.workers[i].Swapping? && s.workers[i].seen == DoneProcessing then 2
             else 4;
  }

  lemma {:induction false} AsleepStep(s: State, a: Action)
    requires Inv(s) && s.at == Asleep
    ensures var t := Next(s, a);
            && Round(t) == Round(s)
            && ((t.at == Asleep && t.lost == s.lost) || t.continued[Round(s)] == 1)
  {
    if a.Producer? && a.i < Size(s) { assert Input(s, a.i); }
  }

  lemma {:induction false} ContinuedStays(s: State, a: Action, r: nat)
    requires Inv(s) && r < |s.rounds| && s.continued[r] == 1
    ensures var t := Next(s, a); r < |t.rounds| && t.continued[r] == 1
  {
    NextKeepsInv(s, a);
    RoundsAreSettled(Next(s, a));
  }

  // The coroutine of round k has gone on, or still sleeps with the same registrations lost.
  predicate AsleepOrContinued(t: State, k: nat, lost: set<nat>) {
    Inv(t) && k < |t.rounds| && (t.continued[k] == 1 || (t.at == Asleep && Round(t) == k && t.lost == lost))
  }

  lemma {:induction false} AsleepRun(s: State, more: seq<Action>)
    requires Inv(s) && s.at == Asleep
    ensures AsleepOrContinued(Run(s, more), Round(s), s.lost)
  {
    if |more| > 0 {
      var n, k := |more| - 1, Round(s);
      AsleepRun(s, more[..n]);
      var t := Run(s, more[..n]);
      NextKeepsInv(t, more[n]);
      if t.continued[k] == 1 { ContinuedStays(t, more[n], k); } else { AsleepStep(t, more[n]); }
    }
  }

  /** From any sleep and under any interleaving: once the producer of an input that did not lose its registration
      is through, the coroutine has gone on, or some producer is about to resume it. */
  lemma {:induction false} CompletedInputWakes(n: nat, actions: seq<Action>, more: seq<Action>, i: nat)
    requires n > 0 && i < n
    requires Run(Initial(n), actions).at == Asleep && i !in Run(Initial(n), actions).lost
    requires Run(Run(Initial(n), actions), more).workers[i] == Finished
    ensures var k := Round(Run(Initial(n), actions));
            var t := Run(Run(Initial(n), actions), more);
            && k < |t.continued|
            && (|| t.continued[k] == 1
                || (t.at == Asleep && Round(t) == k && exists j :: 0 <= j < n && t.workers[j] == Resuming(k)))
  {
    RunKeepsInv(n, actions);
    var s := Run(Initial(n), actions);
    AsleepRun(s, more);
    assert Input(Run(s, more), i);
  }

  /** In particular, if only that producer moves, it resumes the coroutine itself. */
  lemma {:induction false} CompletingInputWakes(n: nat, actions: seq<Action>, i: nat)
    requires n > 0 && i < n
    requires Run(Initial(n), actions).at == Asleep && Current(Run(Initial(n), actions)) == DoneProcessing
    requires i !in Run(Initial(n), actions).lost
    ensures var s := Run(Initial(n), actions);
            var t := Run(s, CompleteInput(i));
            && Round(t) == Round(s) && t.continued[Round(s)] == 1
            && t.rounds[Round(s)] == Done(i) && t.at == ReadStatus
  {
    RunKeepsInv(n, actions);
    var s := Run(Initial(n), actions);
    var k := Round(s);
    var m := NearAfterComplete(s, i);
    var s1 := Next(s, Complete(i));
    NearStep(s1, i, k, m);
    var m2 := if m == 0 then 0 else m - 1;
    var s2 := Next(s1, Producer(i));
    NearStep(s2, i, k, m2);
    var m3 := if m2 == 0 then 0 else m2 - 1;
    var s3 := Next(s2, Producer(i));
    NearStep(s3, i, k, m3);
    NearStep(Next(s3, Producer(i)), i, k, if m3 == 0 then 0 else m3 - 1);
    RunFive(s, Complete(i), Producer(i), Producer(i), Producer(i), Producer(i));
  }

  predicate AllLost(s: State) {
    forall i :: 0 <= i < Size(s) ==> i in s.lost
  }

  lemma {:induction false} AllLostStays(s: State, a: Action)
    requires Inv(s) && AllLost(s) && (s.at == FinishSwap || s.at == Asleep)
    ensures var t := Next(s, a);
            && AllLost(t) && (t.at == FinishSwap || t.at == Asleep)
            && |t.rounds| == |s.rounds| && t.continued == s.continued
  {
    assert Input(s, 0);
    if a.Producer? && a.i < Size(s) { assert Input(s, a.i); }
  }

  /** If every registration was lost, no schedule ever wakes the coroutine, although every input is done. */
  lemma {:induction false} AllLostNeverWakes(n: nat, actions: seq<Action>, more: seq<Action>)
    requires n > 0 && AllLost(Run(Initial(n), actions))
    ensures var s := Run(Initial(n), actions);
            var t := Run(s, more);
            && (forall i :: 0 <= i < n ==> s.pcs[i] == ProducerDone)
            && Inv(t) && AllLost(t) && (t.at == FinishSwap || t.at == Asleep)
            && |t.rounds| == |s.rounds| && t.continued[Round(t)] == 0
  {
    RunKeepsInv(n, actions);
    var s := Run(Initial(n), actions);
    forall i | 0 <= i < n ensures s.pcs[i] == ProducerDone { assert Input(s, i); }
    assert Input(s, n - 1);
    if |more| > 0 {
      AllLostNeverWakes(n, actions, more[..|more| - 1]);
      var before := Run(s, more[..|more| - 1]);
      NextKeepsInv(before, more[|more| - 1]);
      AllLostStays(before, more[|more| - 1]);
    }
  }

  /** Once all producers are through, a coroutine sleeps for ever exactly when every registration was lost. */
  lemma {:induction false} SleepsForeverIffAllLost(n: nat, actions: seq<Action>)
    requires n > 0
    requires forall i :: 0 <= i < n ==> Run(Initial(n), actions).workers[i] == Finished
    ensures var s := Run(Initial(n), actions);
            Run(s, [Coroutine]).at == Asleep <==> AllLost(s)
  {
    RunKeepsInv(n, actions);
    var s := Run(Initial(n), actions);
    RunLast(s, [], Coroutine);
    assert [] + [Coroutine] == [Coroutine];
    forall i | 0 <= i < n ensures Next(s, Coroutine).at == Asleep ==> i in s.lost { assert Input(s, i); }
    if AllLost(s) {
      assert Input(s, n - 1);
    }
  }

  // Every producer completes between the load and the compare-exchange of its registration.
  function LosingTurn(i: nat): seq<Action> {
    [Coroutine, Coroutine, Complete(i), Coroutine, Coroutine]
  }

  function LosingRun(n: nat): seq<Action> {
    if n == 0 then [] else LosingRun(n - 1) + LosingTurn(n - 1)
  }

  predicate Losing(s: State, i: nat) {
    && Shaped(s) && i <= Size(s)
    && s.at == Loop(i, Size(s)) && s.rounds == [Processing]
    && (forall j :: 0 <= j < i ==> j in s.lost && s.workers[j] == Finished)
    && (forall j :: i <= j < Size(s) ==> s.pcs[j] == Idle && s.workers[j] == Working)
  }

  lemma {:induction false} LosingTurnLoses(s: State, i: nat)
    requires Losing(s, i) && i < Size(s)
    ensures Losing(Run(s, LosingTurn(i)), i + 1)
  {
    RunFive(s, Coroutine, Coroutine, Complete(i), Coroutine, Coroutine);
    var s2 := Next(Next(s, Coroutine), Coroutine);
    assert s2 == s.(at := Register(i, WriteSlot));
    var s3 := Next(s2, Complete(i));
    assert s3 == s2.(pcs := s.pcs[i := ProducerDone], workers := s.workers[i := Finished]);
  }

  lemma {:induction false} RunAppend(s: State, a: seq<Action>, b: seq<Action>)
    requires Shaped(s)
    ensures Run(s, a + b) == Run(Run(s, a), b)
  {
    if b == [] {
      assert a + b == a;
    } else {
      var front, last := b[..|b| - 1], b[|b| - 1];
      assert b == front + [last];
      assert a + b == (a + front) + [last];
      RunAppend(s, a, front);
      RunLast(s, a + front, last);
      RunLast(Run(s, a), front, last);
    }
  }

  lemma {:induction false} LosingRunStep(n: nat, i: nat)
    requires i > 0
    ensures Run(Initial(n), LosingRun(i)) == Run(Run(Initial(n), LosingRun(i - 1)), LosingTurn(i - 1))
  {
    RunAppend(Initial(n), LosingRun(i - 1), LosingTurn(i - 1));
  }

  lemma {:induction false} LosingBegins(n: nat)
    ensures Losing(Run(Initial(n), LosingRun(0)), 0)
  {
  }

  lemma {:induction false} SameLosing(s: State, t: State, i: nat)
    requires s == t && Losing(s, i)
    ensures Losing(t, i)
  {
  }

  lemma {:induction false} LosingRunLoses(n: nat, i: nat)
    requires i <= n
    ensures Losing(Run(Initial(n), LosingRun(i)), i)
  {
    if i == 0 {
      LosingBegins(n);
    } else {
      LosingRunLoses(n, i - 1);
      var s := Run(Initial(n), LosingRun(i - 1));
      LosingTurnLoses(s, i - 1);
      LosingRunStep(n, i);
      SameLosing(Run(s, LosingTurn(i - 1)), Run(Initial(n), LosingRun(i)), i);
    }
  }

  /** Such runs exist for every number of inputs, so an unconditional promise to wake is false. */
  lemma {:induction false} LostWakeUp(n: nat)
    requires n > 0
    ensures var s := Run(Run(Initial(n), LosingRun(n)), [Coroutine]);
            s.at == Asleep && AllLost(s) && forall i :: 0 <= i < n ==> s.workers[i] == Finished
  {
    LosingRunLoses(n, n);
    var s := Run(Initial(n), LosingRun(n));
    RunLast(s, [], Coroutine);
    assert [] + [Coroutine] == [Coroutine];
  }

  /** When `when_any` returns, every input is done, or idle with an empty consumer context, so
      that it can be registered again. */
  lemma {:induction false} ReturnLeavesInputsReusable(n: nat, actions: seq<Action>, i: nat)
    requires n > 0 && i < n
    ensures var s := Run(Initial(n), actions);
            s.at.Returned? ==> s.pcs[i] == ProducerDone || (s.pcs[i] == Idle && s.slots[i] == NoContext)
  {
    RunKeepsInv(n, actions);
    assert Input(Run(Initial(n), actions), i);
  }

  predicate HoldsEarlier(w: Worker, slot: Slot, round: nat) {
    if w == Reading then slot.Context? && slot.round < round else Armed(w) && w.round < round
  }

  /** A producer that still holds the context of an earlier round changes nothing but its own position. */
  lemma {:induction false} LateProducerResumesNothing(n: nat, actions: seq<Action>, i: nat)
    requires n > 0 && i < n
    ensures var s := Run(Initial(n), actions);
            HoldsEarlier(s.workers[i], s.slots[i], Round(s)) ==>
              var t := Next(s, Producer(i));
              t == s.(workers := s.workers[i := t.workers[i]]) && !t.workers[i].Resuming?
  {
    RunKeepsInv(n, actions);
    var s := Run(Initial(n), actions);
    assert Input(s, i);
    assert s.workers == s.workers[i := s.workers[i]];
  }

  function Rank(status: Status): nat {
    match status
    case Processing => 2
    case DoneProcessing => 1
    case Done(_) => 0
  }

  /** The status of a context only moves down: processing, done processing, a result. */
  lemma {:induction false} StatusOnlyDrops(n: nat, actions: seq<Action>, a: Action, r: nat)
    requires n > 0 && r < |Run(Initial(n), actions).rounds|
    ensures var s := Run(Initial(n), actions);
            var t := Next(s, a);
            && r < |t.rounds| && Rank(t.rounds[r]) <= Rank(s.rounds[r])
            && (s.rounds[r].Done? ==> t.rounds[r] == s.rounds[r])
  {
    RunKeepsInv(n, actions);
    StatusDrops(Run(Initial(n), actions), a, r);
  }

  lemma {:induction false} StatusDrops(s: State, a: Action, r: nat)
    requires Inv(s) && r < |s.rounds|
    ensures var t := Next(s, a);
            && r < |t.rounds| && Rank(t.rounds[r]) <= Rank(s.rounds[r])
            && (s.rounds[r].Done? ==> t.rounds[r] == s.rounds[r])
  {
    if a.Producer? && a.i < Size(s) { assert Input(s, a.i); }
  }

  /** So `try_resume` goes round its loop at most twice, and only after the status dropped. */
  lemma {:induction false} TryResumeLoopsAtMostTwice(n: nat, actions: seq<Action>, i: nat)
    requires n > 0 && i < n
    ensures var w := Run(Initial(n), actions).workers[i];
            (w.Loading? || w.Swapping? ==> w.tries <= 1)
            && (w.Loading? && w.tries == 1 ==> Rank(Run(Initial(n), actions).rounds[w.round]) < Rank(Processing))
  {
    RunKeepsInv(n, actions);
    assert Input(Run(Initial(n), actions), i);
  }
}
