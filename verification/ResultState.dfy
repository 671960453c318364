/**
  One `result_state`: a producer and a consumer meet on the five-valued atomic
  `m_pc_state`. Every action below is one atomic load, compare-exchange or
  exchange, or one unsynchronised write that the protocol has to make safe. A run
  is an arbitrary sequence of actions; an action that is not enabled does nothing,
  so a run is exactly an interleaving of one producer with one consumer.
 */
module ResultState {
  import opened ProducerConsumer

  // What the producer context holds: nothing yet, a value or an exception.
  datatype Outcome = NoOutcome | Value | Exception

  // The tagged consumer context. `op` numbers the operation that registered.
  datatype Slot = Empty | AwaitSlot(op: nat) | WaitForSlot(op: nat) | WhenAnySlot(op: nat) | SharedSlot

  // Where the consumer is inside an operation. Write stores the consumer context,
  // Swap is the compare-exchange that registers it.
  datatype WaitStage = WaitSwap | WaitTest | WaitBlock | WaitAsleep
  datatype AwaitStage = AwaitWrite | AwaitSwap | Suspended
  datatype TimedStage = TimedWrite | TimedSwap | TimedBlocked | TimedRollback | TimedClear
  datatype AnyStage = AnyWrite | AnySwap | AnyRegistered
  datatype ShareStage = ShareWrite | ShareSwap | ShareFinish | Shared

  datatype Consumer =
    | Ready                                   // between two operations, still owning the state
    | Waiting(w: WaitStage)                   // wait
    | Awaiting(op: nat, a: AwaitStage)        // await
    | Timed(op: nat, t: TimedStage)           // wait_for
    | Any(op: nat, y: AnyStage)               // when_any
    | Rewinding(dying: bool, swapped: bool)   // try_rewind_consumer; dying: from ~shared_result_state
    | Sharing(h: ShareStage)                  // share
    | Dropping(loaded: bool)                  // complete_consumer
    | Gone

  datatype Producer =
    | Building                                // nothing stored yet
    | Built                                   // stored, complete_producer not yet called
    | Swapped(before: PcState)                // exchanged; for consumer_set, about to read the consumer context
    | Resuming(slot: Slot)                    // holds a copy of the consumer context
    | Finishing                               // locked the weak pointer, inside on_result_finished
    | Completed

  datatype TimedReturn = TimedReturn(op: nat, outcome: Outcome)

  // What has happened so far.
  datatype Log = Log(
    suspended: set<nat>,                      // await operations that returned true
    refused: set<nat>,                        // await operations that returned false
    resumed: seq<nat>,                        // await operations resumed by the producer
    released: set<nat>,                       // wait_for operations whose semaphore was released
    timedReturns: seq<TimedReturn>,           // what each wait_for returned
    overtaken: bool)                          // a rollback or rewind found that the producer had been faster

  datatype State = State(
    pc: PcState,
    slot: Slot,
    outcome: Outcome,
    consumer: Consumer,
    producer: Producer,
    joined: bool,                             // the consumer has been told that the result is ready
    notified: bool,                           // the producer has called notify_one
    finishedCalls: nat,                       // calls of on_result_finished
    deletes: nat,                             // calls of delete_self
    nextOp: nat,
    log: Log)

  datatype Action =
    // producer
    | Build(outcome: Outcome) | Publish | Act | LeaveFinished
    // consumer: begin an operation and perform its first load
    | BeginWait | BeginAwait | BeginTimed | BeginAny | BeginRewind | BeginShare | BeginDrop
    // consumer: the next step of the current operation; TimeOut expires wait_for
    | Continue | TimeOut
    // consumer: drop a result known to be ready; drop the last shared_result
    | DropJoined | DropShared

  function Initial(): State {
    State(Idle, Empty, NoOutcome, Ready, Building, false, false, 0, 0, 0, Log({}, {}, [], {}, [], false))
  }

  function Run(s: State, actions: seq<Action>): State {
    if |actions| == 0 then s
    else Next(Run(s, actions[..|actions| - 1]), actions[|actions| - 1])
  }

  function Next(s: State, a: Action): State {
    match a
    case Build(o) =>
      if s.producer == Building && o != NoOutcome then s.(outcome := o, producer := Built) else s
    case Publish =>
      // A promise dropped together with its own result completes without a result.
      if s.producer == Built || (s.producer == Building && s.consumer == Gone) then
        s.(pc := ProducerDone, producer := Swapped(s.pc))
      else s
    case Act =>
      if s.producer.Swapped? then ActNext(s) else if s.producer.Resuming? then ResumeConsumer(s, s.producer.slot) else s
    case LeaveFinished => if s.producer == Finishing then s.(producer := Completed) else s
    case Continue => ContinueNext(s)
    case TimeOut =>
      if s.consumer.Timed? && s.consumer.t == TimedBlocked then s.(consumer := Timed(s.consumer.op, TimedRollback))
      else s
    case DropJoined =>
      if s.consumer == Ready && s.joined then s.(consumer := Gone, deletes := s.deletes + 1) else s
    case DropShared =>
      // The last reference goes away; a producer inside on_result_finished holds one.
      if s.consumer == Sharing(Shared) && s.producer != Finishing then
        if s.pc == ConsumerSet then s.(consumer := Rewinding(true, false))
        else Overtaken(s).(consumer := Dropping(false))
      else s
    case BeginRewind =>
      if s.consumer == Ready || (s.consumer.Any? && s.consumer.y == AnyRegistered) then
        if s.pc == ConsumerSet then s.(consumer := Rewinding(false, false)) else Overtaken(s).(consumer := Ready)
      else s
    case _ => if s.consumer == Ready then BeginNext(s, a) else s
  }

  // The consumer wanted to take its registration back, but the producer had exchanged already.
  function Overtaken(s: State): State {
    s.(log := s.log.(overtaken := s.log.overtaken || s.pc == ProducerDone))
  }

  // complete_producer after its exchange. The consumer context is read only when the old value says that it is set.
  function ActNext(s: State): State
    requires s.producer.Swapped?
  {
    match s.producer.before
    case ConsumerSet => s.(producer := Resuming(s.slot))
    case ConsumerWaiting => s.(producer := Completed, notified := true)
    case ConsumerDone => s.(producer := Completed, deletes := s.deletes + 1)
    case _ => s.(producer := Completed)
  }

  function ResumeConsumer(s: State, slot: Slot): State {
    match slot
    case Empty => s.(producer := Completed)
    case AwaitSlot(op) =>
      s.(producer := Completed, consumer := Ready, joined := true, log := s.log.(resumed := s.log.resumed + [op]))
    case WaitForSlot(op) => s.(producer := Completed, log := s.log.(released := s.log.released + {op}))
    case WhenAnySlot(op) => s.(producer := Completed)
    case SharedSlot =>
      if s.consumer == Sharing(Shared) then s.(producer := Finishing, finishedCalls := s.finishedCalls + 1)
      else s.(producer := Completed)
  }

  // The first load of each consumer operation.
  function BeginNext(s: State, a: Action): State {
    var op := s.nextOp;
    var ready := s.pc == ProducerDone;
    match a
    case BeginWait => if ready then s.(joined := true) else s.(consumer := Waiting(WaitSwap))
    case BeginAwait =>
      if ready then s.(joined := true, nextOp := op + 1, log := s.log.(refused := s.log.refused + {op}))
      else s.(nextOp := op + 1, consumer := Awaiting(op, AwaitWrite))
    case BeginTimed =>
      if ready then TimedDone(s.(nextOp := op + 1), op, s.outcome)
      else s.(nextOp := op + 1, consumer := Timed(op, TimedWrite))
    case BeginAny => s.(nextOp := op + 1, consumer := Any(op, if ready then AnyRegistered else AnyWrite))
    case BeginShare => s.(consumer := Sharing(if ready then ShareFinish else ShareWrite))
    case BeginDrop => DropLoadNext(s)
    case _ => s
  }

  // One further step of the operation the consumer is in.
  function ContinueNext(s: State): State {
    match s.consumer
    case Waiting(w) => WaitNext(s, w)
    case Awaiting(op, a) => AwaitNext(s, op, a)
    case Timed(op, t) => TimedNext(s, op, t)
    case Any(op, y) => AnyNext(s, op, y)
    case Rewinding(dying, swapped) => RewindNext(s, dying, swapped)
    case Sharing(h) => ShareNext(s, h)
    case Dropping(loaded) => if loaded then DropSwapNext(s) else DropLoadNext(s)
    case _ => s
  }

  function WaitNext(s: State, w: WaitStage): State {
    match w
    case WaitSwap =>
      if s.pc == Idle then s.(pc := ConsumerWaiting, consumer := Waiting(WaitTest))
      else s.(consumer := Ready, joined := true)
    case WaitTest =>
      if s.pc == ProducerDone then s.(consumer := Ready, joined := true) else s.(consumer := Waiting(WaitBlock))
    case WaitBlock => s.(consumer := Waiting(if s.pc == ConsumerWaiting then WaitAsleep else WaitTest))
    case WaitAsleep =>                          // a wait on an atomic may also end before the notification
      if s.notified || s.pc != ConsumerWaiting then s.(consumer := Waiting(WaitTest)) else s
  }

  function AwaitNext(s: State, op: nat, a: AwaitStage): State {
    match a
    case AwaitWrite => s.(slot := AwaitSlot(op), consumer := Awaiting(op, AwaitSwap))
    case AwaitSwap =>
      if s.pc == Idle then
        s.(pc := ConsumerSet, consumer := Awaiting(op, Suspended), log := s.log.(suspended := s.log.suspended + {op}))
      else s.(consumer := Ready, joined := true, log := s.log.(refused := s.log.refused + {op}))
    case Suspended => s
  }

  function TimedNext(s: State, op: nat, t: TimedStage): State {
    match t
    case TimedWrite => s.(slot := WaitForSlot(op), consumer := Timed(op, TimedSwap))
    case TimedSwap =>
      if s.pc == Idle then s.(pc := ConsumerSet, consumer := Timed(op, TimedBlocked)) else TimedDone(s, op, s.outcome)
    case TimedBlocked => if op in s.log.released then TimedDone(s, op, s.outcome) else s
    case TimedRollback =>
      if s.pc == ConsumerSet then s.(pc := Idle, consumer := Timed(op, TimedClear))
      else TimedDone(Overtaken(s), op, s.outcome)
    case TimedClear => TimedDone(s.(slot := Empty), op, NoOutcome)
  }

  function TimedDone(s: State, op: nat, o: Outcome): State {
    s.(consumer := Ready, log := s.log.(timedReturns := s.log.timedReturns + [TimedReturn(op, o)]))
  }

  function AnyNext(s: State, op: nat, y: AnyStage): State {
    match y
    case AnyWrite => s.(slot := WhenAnySlot(op), consumer := Any(op, AnySwap))
    case AnySwap => s.(pc := if s.pc == Idle then ConsumerSet else s.pc, consumer := Any(op, AnyRegistered))
    case AnyRegistered => s
  }

  function RewindNext(s: State, dying: bool, swapped: bool): State {
    var after := if dying then Dropping(false) else Ready;
    if swapped then s.(slot := Empty, consumer := after)
    else if s.pc == ConsumerSet then s.(pc := Idle, consumer := Rewinding(dying, true))
    else Overtaken(s).(consumer := after)
  }

  function ShareNext(s: State, h: ShareStage): State {
    match h
    case ShareWrite => s.(slot := SharedSlot, consumer := Sharing(ShareSwap))
    case ShareSwap =>
      if s.pc == Idle then s.(pc := ConsumerSet, consumer := Sharing(Shared)) else s.(consumer := Sharing(ShareFinish))
    case ShareFinish => s.(consumer := Sharing(Shared), finishedCalls := s.finishedCalls + 1)
    case Shared => s
  }

  function DropLoadNext(s: State): State {
    if s.pc == ProducerDone then s.(consumer := Gone, deletes := s.deletes + 1) else s.(consumer := Dropping(true))
  }

  function DropSwapNext(s: State): State {
    s.(consumer := Gone, pc := ConsumerDone, deletes := if s.pc == ProducerDone then s.deletes + 1 else s.deletes)
  }

  // ---------- Invariant ----------

  predicate Exchanged(s: State) {
    s.producer.Swapped? || s.producer.Resuming? || s.producer.Finishing? || s.producer.Completed?
  }

  // The producer has exchanged and is to resume a consumer through `slot`.
  predicate Owes(s: State, slot: Slot) {
    (s.producer == Swapped(ConsumerSet) && s.slot == slot) || s.producer == Resuming(slot)
  }

  // The value of m_pc_state that the consumer's position implies until the producer publishes.
  function ExpectedPc(c: Consumer): PcState {
    match c
    case Waiting(w) => if w == WaitSwap then Idle else ConsumerWaiting
    case Awaiting(_, a) => if a == Suspended then ConsumerSet else Idle
    case Timed(_, t) => if t == TimedBlocked || t == TimedRollback then ConsumerSet else Idle
    case Any(_, y) => if y == AnyRegistered then ConsumerSet else Idle
    case Rewinding(_, swapped) => if swapped then Idle else ConsumerSet
    case Sharing(h) => if h == Shared then ConsumerSet else Idle
    case Gone => ConsumerDone
    case _ => Idle
  }

  predicate PcInv(s: State) {
    && (!Exchanged(s) ==> s.pc == ExpectedPc(s.consumer) && s.consumer != Sharing(ShareFinish))
    && (Exchanged(s) ==> s.pc == ProducerDone || s.consumer == Gone)
    && (s.producer == Building ==> s.outcome == NoOutcome)
    && (s.producer == Built ==> s.outcome != NoOutcome)
    && (Exchanged(s) && s.consumer != Gone ==> s.outcome != NoOutcome)
    && (s.joined ==> Exchanged(s))
  }

  // The consumer context is written by the consumer only, so its content follows the consumer.
  predicate SlotInv(s: State) {
    match s.consumer
    case Awaiting(op, a) => s.slot == if a == AwaitWrite then Empty else AwaitSlot(op)
    case Timed(op, t) => s.slot == if t == TimedWrite then Empty else WaitForSlot(op)
    case Any(op, y) =>
      s.slot == (if y == AnyWrite then Empty else WhenAnySlot(op)) || (y == AnyRegistered && Exchanged(s))
    case Rewinding(dying, _) => if dying then s.slot == SharedSlot else s.slot.WhenAnySlot?
    case Sharing(h) => s.slot == (if h == ShareWrite then Empty else SharedSlot) || (h != ShareWrite && Exchanged(s))
    case Waiting(_) => s.slot == Empty
    case Gone => true
    case _ => s.slot == Empty || Exchanged(s)
  }

  // A published producer still owes the consumer exactly the wake-up that it copied.
  predicate WakeInv(s: State) {
    && (s.consumer.Awaiting? && s.consumer.a == Suspended && Exchanged(s) ==>
          Owes(s, AwaitSlot(s.consumer.op)))
    && (s.consumer.Timed? && s.consumer.t == TimedBlocked && Exchanged(s) ==>
          Owes(s, WaitForSlot(s.consumer.op)) || s.consumer.op in s.log.released)
    && (s.consumer == Waiting(WaitAsleep) && Exchanged(s) ==>
          s.notified || s.producer == Swapped(ConsumerWaiting))
    && s.producer != Swapped(ProducerDone)
    && (s.producer.Resuming? && s.producer.slot.AwaitSlot? ==> s.consumer == Awaiting(s.producer.slot.op, Suspended))
    && (s.log.released != {} || s.notified ==> s.producer == Completed)
  }

  // The consumer is registered, and has not yet tried to take the registration back.
  predicate Registered(c: Consumer) {
    match c
    case Awaiting(_, a) => a == Suspended
    case Timed(_, t) => t == TimedBlocked || t == TimedRollback
    case Any(_, y) => y == AnyRegistered
    case Rewinding(_, swapped) => !swapped
    case Sharing(h) => h == Shared
    case _ => false
  }

  // The consumer is past the stages in which it writes its context.
  predicate WritesNoMore(c: Consumer) {
    match c
    case Waiting(_) => false
    case Awaiting(_, _) => false
    case Timed(_, _) => false
    case Any(_, y) => y == AnyRegistered
    case Rewinding(_, _) => false
    case Sharing(h) => h == ShareFinish || h == Shared
    case _ => true
  }

  // Until the producer has read the consumer context, nobody writes it.
  predicate ReadInv(s: State) {
    s.producer == Swapped(ConsumerSet) ==>
      && s.slot != Empty
      && (Registered(s.consumer) || (WritesNoMore(s.consumer) && s.log.overtaken))
      && (s.slot.AwaitSlot? ==> s.consumer == Awaiting(s.slot.op, Suspended))
  }

  predicate PastShare(c: Consumer) {
    c == Sharing(Shared) || (c.Rewinding? && c.dying) || c.Dropping? || c == Gone
  }

  predicate ShareInv(s: State) {
    var owed := Owes(s, SharedSlot);
    && s.finishedCalls <= 1
    && (s.finishedCalls == 1 ==> Exchanged(s) && PastShare(s.consumer) && !owed)
    && (owed ==> PastShare(s.consumer))
    && (s.consumer == Sharing(Shared) && Exchanged(s) ==> owed || s.finishedCalls == 1)
    && (s.producer == Finishing ==> s.consumer == Sharing(Shared))
  }

  predicate DeleteInv(s: State) {
    var owed := s.producer == Swapped(ConsumerDone);
    && (s.consumer != Gone ==> s.deletes == 0 && !owed)
    && (s.consumer == Gone ==>
          || (s.deletes == 0 && (!Exchanged(s) || owed))
          || (s.deletes == 1 && Exchanged(s) && !owed))
  }

  predicate Control(s: State) {
    PcInv(s) && SlotInv(s) && WakeInv(s) && ReadInv(s) && ShareInv(s) && DeleteInv(s)
  }

  lemma {:induction false} ResumeKeepsControl(s: State)
    requires Control(s) && s.producer.Resuming?
    ensures Control(ResumeConsumer(s, s.producer.slot))
  {
    if s.producer.slot == SharedSlot {
      var t := ResumeConsumer(s, SharedSlot);
      assert PcInv(t) && SlotInv(t) && WakeInv(t);
    }
  }

  lemma {:induction false} ActKeepsControl(s: State)
    requires Control(s) && s.producer.Swapped?
    ensures Control(ActNext(s))
  {
  }

  lemma {:induction false} BeginKeepsControl(s: State, a: Action)
    requires Control(s) && s.consumer == Ready
    ensures Control(BeginNext(s, a))
  {
  }

  lemma {:induction false} WaitKeepsControl(s: State)
    requires Control(s) && s.consumer.Waiting?
    ensures Control(WaitNext(s, s.consumer.w))
  {
  }

  lemma {:induction false} AwaitKeepsControl(s: State)
    requires Control(s) && s.consumer.Awaiting?
    ensures Control(AwaitNext(s, s.consumer.op, s.consumer.a))
  {
  }

  lemma {:induction false} TimedKeepsControl(s: State)
    requires Control(s) && s.consumer.Timed?
    ensures Control(TimedNext(s, s.consumer.op, s.consumer.t))
  {
  }

  lemma {:induction false} AnyKeepsControl(s: State)
    requires Control(s) && s.consumer.Any?
    ensures Control(AnyNext(s, s.consumer.op, s.consumer.y))
  {
  }

  lemma {:induction false} RewindKeepsControl(s: State)
    requires Control(s) && s.consumer.Rewinding?
    ensures Control(RewindNext(s, s.consumer.dying, s.consumer.swapped))
  {
  }

  lemma {:induction false} ShareKeepsControl(s: State)
    requires Control(s) && s.consumer.Sharing?
    ensures Control(ShareNext(s, s.consumer.h))
  {
  }

  lemma {:induction false} DropKeepsControl(s: State)
    requires Control(s) && s.consumer.Dropping?
    ensures Control(ContinueNext(s))
  {
  }

  lemma {:induction false} ContinueKeepsControl(s: State)
    requires Control(s)
    ensures Control(ContinueNext(s))
  {
    match s.consumer
    case Waiting(_) => WaitKeepsControl(s);
    case Awaiting(_, _) => AwaitKeepsControl(s);
    case Timed(_, _) => TimedKeepsControl(s);
    case Any(_, _) => AnyKeepsControl(s);
    case Rewinding(_, _) => RewindKeepsControl(s);
    case Sharing(_) => ShareKeepsControl(s);
    case Dropping(_) => DropKeepsControl(s);
    case _ =>
  }

  lemma {:induction false} BuildKeepsControl(s: State, o: Outcome)
    requires Control(s)
    ensures Control(Next(s, Build(o)))
  {
  }

  lemma {:induction false} PublishKeepsControl(s: State)
    requires Control(s)
    ensures Control(Next(s, Publish)) && Control(Next(s, LeaveFinished))
  {
  }

  lemma {:induction false} TimeOutKeepsControl(s: State)
    requires Control(s)
    ensures Control(Next(s, TimeOut))
  {
  }

  lemma {:induction false} BeginRewindKeepsControl(s: State)
    requires Control(s)
    ensures Control(Next(s, BeginRewind))
  {
  }

  lemma {:induction false} DropJoinedKeepsControl(s: State)
    requires Control(s)
    ensures Control(Next(s, DropJoined))
  {
  }

  lemma {:induction false} DropSharedKeepsControl(s: State)
    requires Control(s)
    ensures Control(Next(s, DropShared))
  {
  }

  lemma {:induction false} NextKeepsControl(s: State, a: Action)
    requires Control(s)
    ensures Control(Next(s, a))
  {
    match a
    case Build(o) => BuildKeepsControl(s, o);
    case Publish => PublishKeepsControl(s);
    case LeaveFinished => PublishKeepsControl(s);
    case Act => if s.producer.Swapped? { ActKeepsControl(s); } else if s.producer.Resuming? { ResumeKeepsControl(s); }
    case Continue => ContinueKeepsControl(s);
    case TimeOut => TimeOutKeepsControl(s);
    case DropJoined => DropJoinedKeepsControl(s);
    case DropShared => DropSharedKeepsControl(s);
    case BeginRewind => BeginRewindKeepsControl(s);
    case _ => if s.consumer == Ready { BeginKeepsControl(s, a); }
  }

  predicate Below(ops: set<nat>, bound: nat) {
    forall op :: op in ops ==> op < bound
  }

  predicate AwaitInv(s: State) {
    && Below(s.log.suspended, s.nextOp) && Below(s.log.refused, s.nextOp)
    && (s.consumer.Awaiting? ==> s.consumer.op < s.nextOp && s.consumer.op !in s.log.refused)
    && s.log.suspended !! s.log.refused
    && (s.consumer.Awaiting? ==> (s.consumer.op in s.log.suspended <==> s.consumer.a == Suspended))
    && (forall op :: op in s.log.resumed ==> op in s.log.suspended && s.consumer != Awaiting(op, Suspended))
    && (forall op :: op in s.log.suspended ==> op in s.log.resumed || s.consumer == Awaiting(op, Suspended))
    && (forall op :: op in s.log.resumed ==> multiset(s.log.resumed)[op] == 1)
  }

  predicate TimedInv(s: State) {
    forall i :: 0 <= i < |s.log.timedReturns| ==>
      var o := s.log.timedReturns[i].outcome;
      o == NoOutcome || (Exchanged(s) && o == s.outcome)
  }

  predicate History(s: State) {
    AwaitInv(s) && TimedInv(s)
  }

  lemma {:induction false} SameHistory(s: State, t: State)
    requires History(s) && t.log == s.log.(overtaken := t.log.overtaken) && t.nextOp == s.nextOp
    requires !s.consumer.Awaiting? && !t.consumer.Awaiting? && t.outcome == s.outcome && (Exchanged(s) ==> Exchanged(t))
    ensures History(t)
  {
  }

  lemma {:induction false} AwaiterResumed(s: State, op: nat)
    requires AwaitInv(s) && s.consumer == Awaiting(op, Suspended)
    ensures AwaitInv(ResumeConsumer(s, AwaitSlot(op)))
  {
  }

  lemma {:induction false} ResumeKeepsHistory(s: State)
    requires Control(s) && History(s) && s.producer.Resuming?
    ensures History(ResumeConsumer(s, s.producer.slot))
  {
    if s.producer.slot.AwaitSlot? { AwaiterResumed(s, s.producer.slot.op); }
  }

  lemma {:induction false} ActKeepsHistory(s: State)
    requires Control(s) && History(s)
    ensures History(Next(s, Act))
  {
    if s.producer.Resuming? {
      ResumeKeepsHistory(s);
    } else if s.producer.Swapped? {
      assert ActNext(s).log == s.log;
    }
  }

  lemma {:induction false} AwaitKeepsHistory(s: State)
    requires Control(s) && History(s) && s.consumer.Awaiting?
    ensures History(AwaitNext(s, s.consumer.op, s.consumer.a))
  {
  }

  lemma {:induction false} TimedKeepsHistory(s: State)
    requires Control(s) && History(s) && s.consumer.Timed?
    ensures History(TimedNext(s, s.consumer.op, s.consumer.t))
  {
  }

  lemma {:induction false} BeginKeepsHistory(s: State, a: Action)
    requires Control(s) && History(s) && s.consumer == Ready
    ensures History(BeginNext(s, a))
  {
  }

  lemma {:induction false} ContinueKeepsHistory(s: State)
    requires Control(s) && History(s)
    ensures History(ContinueNext(s))
  {
    match s.consumer
    case Awaiting(_, _) => AwaitKeepsHistory(s);
    case Timed(_, _) => TimedKeepsHistory(s);
    case _ => SameHistory(s, ContinueNext(s));
  }

  lemma {:induction false} ProducerKeepsHistory(s: State, a: Action)
    requires Control(s) && History(s) && (a.Build? || a.Publish? || a.LeaveFinished?)
    ensures History(Next(s, a))
  {
  }

  lemma {:induction false} LeaveKeepsHistory(s: State, a: Action)
    requires Control(s) && History(s) && (a.BeginRewind? || a.TimeOut? || a.DropJoined? || a.DropShared?)
    ensures History(Next(s, a))
  {
    if Next(s, a) != s { SameHistory(s, Next(s, a)); }
  }

  lemma {:induction false} NextKeepsHistory(s: State, a: Action)
    requires Control(s) && History(s)
    ensures History(Next(s, a))
  {
    match a
    case Build(_) => ProducerKeepsHistory(s, a);
    case Publish => ProducerKeepsHistory(s, a);
    case LeaveFinished => ProducerKeepsHistory(s, a);
    case Act => ActKeepsHistory(s);
    case Continue => ContinueKeepsHistory(s);
    case TimeOut => LeaveKeepsHistory(s, a);
    case DropJoined => LeaveKeepsHistory(s, a);
    case DropShared => LeaveKeepsHistory(s, a);
    case BeginRewind => LeaveKeepsHistory(s, a);
    case _ => if s.consumer == Ready { BeginKeepsHistory(s, a); }
  }

  predicate Inv(s: State) {
    Control(s) && History(s)
  }

  lemma {:induction false} RunKeepsInv(s: State, actions: seq<Action>)
    requires Inv(s)
    ensures Inv(Run(s, actions))
  {
    if |actions| > 0 {
      var before := Run(s, actions[..|actions| - 1]);
      RunKeepsInv(s, actions[..|actions| - 1]);
      NextKeepsControl(before, actions[|actions| - 1]);
      NextKeepsHistory(before, actions[|actions| - 1]);
    }
  }

  // ---------- What every interleaving guarantees ----------

  /** The state is deleted at most once, and exactly once when both sides are through: by the consumer if the
      producer has exchanged before it leaves, by the producer otherwise. */
  lemma {:induction false} DeletedOnceByTheLastSide(actions: seq<Action>)
    ensures var s := Run(Initial(), actions);
            && s.deletes <= 1
            && (s.consumer == Gone && s.producer == Completed ==> s.deletes == 1)
            && (s.deletes == 1 <==> s.consumer == Gone && Exchanged(s) && s.producer != Swapped(ConsumerDone))
  {
    RunKeepsInv(Initial(), actions);
  }

  // The producer still has to use the state object: to store into it, to exchange, to read the consumer context, to
  // call notify_one on its atomic, or to delete it.
  predicate ProducerTouches(p: Producer) {
    p == Building || p == Built || p == Finishing || (p.Swapped? && p.before != Idle)
  }

  /** "The state is not deleted while a side may still use it" fails in exactly two places: the producer has exchanged
      and is about to read the consumer context, or about to call notify_one, and the consumer has left meanwhile. */
  lemma {:induction false} TouchedAfterDeletionIff(actions: seq<Action>)
    ensures var s := Run(Initial(), actions);
            && (s.deletes == 1 ==> s.consumer == Gone)
            && (s.deletes == 1 && ProducerTouches(s.producer) <==>
                  s.consumer == Gone && (s.producer == Swapped(ConsumerSet) || s.producer == Swapped(ConsumerWaiting)))
  {
    RunKeepsInv(Initial(), actions);
  }

  /** So the read is safe for `await`, whose consumer is suspended until the producer resumes it, and for any
      consumer that is still registered. A consumer that has left before the read had tried to take back a
      `wait_for`, `when_any` or `share` registration and lost to the exchange. The context itself never changes
      under the read. */
  lemma {:induction false} ConsumerContextRead(actions: seq<Action>)
    ensures var s := Run(Initial(), actions);
            s.producer == Swapped(ConsumerSet) ==>
              && (s.deletes == 1 <==> s.consumer == Gone)
              && (s.slot.AwaitSlot? ==> s.consumer == Awaiting(s.slot.op, Suspended) && s.deletes == 0)
              && (Registered(s.consumer) ==> s.deletes == 0)
              && (s.consumer == Gone ==>
                    s.log.overtaken && (s.slot.WaitForSlot? || s.slot.WhenAnySlot? || s.slot == SharedSlot))
              && Next(s, Act).producer == Resuming(s.slot)
  {
    RunKeepsInv(Initial(), actions);
  }

  /** Whatever the consumer does before the producer reads, it leaves the context as the exchange found it. */
  lemma {:induction false} ContextIsStableUntilRead(actions: seq<Action>, a: Action)
    ensures var s := Run(Initial(), actions);
            s.producer == Swapped(ConsumerSet) ==> Next(s, a).slot == s.slot
  {
    RunKeepsInv(Initial(), actions);
    var s := Run(Initial(), actions);
    if s.producer == Swapped(ConsumerSet) { ContextStep(s, a); }
  }

  lemma {:induction false} ContextStep(s: State, a: Action)
    requires PcInv(s) && ReadInv(s) && s.producer == Swapped(ConsumerSet)
    ensures Next(s, a).slot == s.slot
  {
    if a == Continue { ContextContinue(s); }
  }

  lemma {:induction false} ContextContinue(s: State)
    requires PcInv(s) && ReadInv(s) && s.producer == Swapped(ConsumerSet)
    ensures ContinueNext(s).slot == s.slot
  {
  }

  // The consumer registers, and the producer stores a value and exchanges.
  function RegisterAndPublish(begin: Action): seq<Action> {
    [] + [begin] + [Continue] + [Continue] + [Build(Value)] + [Publish]
  }

  // The state that this leaves: the producer is about to read the consumer context.
  function AboutToRead(slot: Slot, c: Consumer, nextOp: nat): State {
    State(ProducerDone, slot, Value, c, Swapped(ConsumerSet), false, false, 0, 0, nextOp,
          Log({}, {}, [], {}, [], false))
  }

  lemma {:induction false} RegisteredAndPublished(begin: Action)
    requires begin == BeginTimed || begin == BeginAny || begin == BeginShare
    ensures Run(Initial(), RegisterAndPublish(begin)) ==
            if begin == BeginTimed then AboutToRead(WaitForSlot(0), Timed(0, TimedBlocked), 1)
            else if begin == BeginAny then AboutToRead(WhenAnySlot(0), Any(0, AnyRegistered), 1)
            else AboutToRead(SharedSlot, Sharing(Shared), 0)
  {
    RunLast(Initial(), [], begin);
    RunLast(Initial(), [] + [begin], Continue);
    RunLast(Initial(), [] + [begin] + [Continue], Continue);
    RunLast(Initial(), [] + [begin] + [Continue] + [Continue], Build(Value));
    RunLast(Initial(), [] + [begin] + [Continue] + [Continue] + [Build(Value)], Publish);
  }

  /** A `wait` that finds the result ready before it blocks, and whose result is then consumed, deletes the state before
      the producer calls notify_one on it. */
  lemma {:induction false} WaitingConsumerLeavesBeforeNotify()
    ensures var s := Run(Initial(), [] + [BeginWait] + [Continue] + [Build(Value)] + [Publish] + [Continue] +
                                    [DropJoined]);
            s.deletes == 1 && s.producer == Swapped(ConsumerWaiting)
  {
    var a2 := [] + [BeginWait] + [Continue];
    var a4 := a2 + [Build(Value)] + [Publish];
    var log := Log({}, {}, [], {}, [], false);
    RunLast(Initial(), [], BeginWait);
    RunLast(Initial(), [] + [BeginWait], Continue);
    assert Run(Initial(), a2) ==
           State(ConsumerWaiting, Empty, NoOutcome, Waiting(WaitTest), Building, false, false, 0, 0, 0, log);
    RunLast(Initial(), a2, Build(Value));
    RunLast(Initial(), a2 + [Build(Value)], Publish);
    assert Run(Initial(), a4) ==
           State(ProducerDone, Empty, Value, Waiting(WaitTest), Swapped(ConsumerWaiting), false, false, 0, 0, 0, log);
    RunLast(Initial(), a4, Continue);
    RunLast(Initial(), a4 + [Continue], DropJoined);
  }

  /** A `wait_for` that times out, loses the rollback and drops the result deletes the state before the read. */
  lemma {:induction false} TimedOutConsumerLeavesBeforeRead()
    ensures var s := Run(Initial(), RegisterAndPublish(BeginTimed) + [TimeOut] + [Continue] + [BeginDrop]);
            s.deletes == 1 && s.producer == Swapped(ConsumerSet) && s.slot == WaitForSlot(0)
  {
    var front := RegisterAndPublish(BeginTimed);
    RegisteredAndPublished(BeginTimed);
    RunLast(Initial(), front, TimeOut);
    RunLast(Initial(), front + [TimeOut], Continue);
    RunLast(Initial(), front + [TimeOut] + [Continue], BeginDrop);
  }

  /** So does a `when_any` that another input has finished, and whose result is then dropped. */
  lemma {:induction false} WhenAnyConsumerLeavesBeforeRead()
    ensures var s := Run(Initial(), RegisterAndPublish(BeginAny) + [BeginRewind] + [BeginDrop]);
            s.deletes == 1 && s.producer == Swapped(ConsumerSet) && s.slot == WhenAnySlot(0)
  {
    var front := RegisterAndPublish(BeginAny);
    RegisteredAndPublished(BeginAny);
    RunLast(Initial(), front, BeginRewind);
    RunLast(Initial(), front + [BeginRewind], BeginDrop);
  }

  /** And so does the last `shared_result`, when it is dropped at that moment. */
  lemma {:induction false} SharedConsumerLeavesBeforeRead()
    ensures var s := Run(Initial(), RegisterAndPublish(BeginShare) + [DropShared] + [Continue]);
            s.deletes == 1 && s.producer == Swapped(ConsumerSet) && s.slot == SharedSlot
  {
    var front := RegisterAndPublish(BeginShare);
    RegisteredAndPublished(BeginShare);
    RunLast(Initial(), front, DropShared);
    RunLast(Initial(), front + [DropShared], Continue);
  }

  /** An `await` that returned true is resumed exactly once: it is resumed already, or it
      is suspended and the resumption is still to come. One that returned false is never resumed. */
  lemma {:induction false} AwaitResumedExactlyOnce(actions: seq<Action>, op: nat)
    ensures var s := Run(Initial(), actions);
            && (op in s.log.refused ==> op !in s.log.suspended && op !in s.log.resumed)
            && (op in s.log.resumed ==> op in s.log.suspended && multiset(s.log.resumed)[op] == 1)
            && (op in s.log.suspended && op !in s.log.resumed ==>
                  && s.consumer == Awaiting(op, Suspended)
                  && ((s.pc == ConsumerSet && s.slot == AwaitSlot(op) && !Exchanged(s))
                      || Owes(s, AwaitSlot(op))))
            && (op in s.log.suspended && s.producer == Completed ==> multiset(s.log.resumed)[op] == 1)
  {
    RunKeepsInv(Initial(), actions);
  }

  /** Whenever an operation is about to store its consumer context, the context is empty,
      so no `await`, `wait_for`, `when_any` or `share` overwrites an earlier one. */
  lemma {:induction false} RegistrationFindsEmptySlot(actions: seq<Action>)
    ensures var s := Run(Initial(), actions);
            && (s.consumer.Awaiting? && s.consumer.a == AwaitWrite ==> s.slot == Empty)
            && (s.consumer.Timed? && s.consumer.t == TimedWrite ==> s.slot == Empty)
            && (s.consumer.Any? && s.consumer.y == AnyWrite ==> s.slot == Empty)
            && (s.consumer == Sharing(ShareWrite) ==> s.slot == Empty)
            && (s.consumer == Ready ==> (s.pc == Idle && s.slot == Empty) || s.pc == ProducerDone)
  {
    RunKeepsInv(Initial(), actions);
  }

  /** A `wait_for` that reports a result reports the outcome that the producer published,
      and the state is `producer_done` from then on until the state is dropped. */
  lemma {:induction false} TimedWaitReportsPublishedOutcome(actions: seq<Action>, i: nat)
    requires i < |Run(Initial(), actions).log.timedReturns|
    ensures var s := Run(Initial(), actions);
            var o := s.log.timedReturns[i].outcome;
            o != NoOutcome ==> o == s.outcome && (s.pc == ProducerDone || s.consumer == Gone)
  {
    RunKeepsInv(Initial(), actions);
  }

  /** No wake-up is lost: a blocked consumer whose result is published has its wake-up
      delivered or owed by the producer's next step. */
  lemma {:induction false} BlockedConsumerIsWoken(actions: seq<Action>)
    ensures var s := Run(Initial(), actions);
            && (s.consumer == Waiting(WaitAsleep) ==>
                  || s.pc == ConsumerWaiting
                  || s.notified
                  || Next(s, Act).notified)
            && (s.consumer.Timed? && s.consumer.t == TimedBlocked ==>
                  || s.pc == ConsumerSet
                  || s.consumer.op in s.log.released
                  || s.consumer.op in Next(s, Act).log.released
                  || (s.producer.Swapped? && s.consumer.op in Next(Next(s, Act), Act).log.released))
  {
    RunKeepsInv(Initial(), actions);
  }

  /** `on_result_finished` runs at most once, and exactly once if the shared state is still
      alive when the producer is through. */
  lemma {:induction false} SharedStateFinishedOnce(actions: seq<Action>)
    ensures var s := Run(Initial(), actions);
            && s.finishedCalls <= 1
            && (s.consumer == Sharing(Shared) && s.producer == Completed ==> s.finishedCalls == 1)
            && (s.finishedCalls == 1 ==> s.outcome != NoOutcome || s.consumer == Gone)
  {
    RunKeepsInv(Initial(), actions);
  }

  // ---------- The outcome that is reported is the one that was stored ----------

  // What the first call of set_result or set_exception stores.
  function Stored(actions: seq<Action>): Outcome {
    if |actions| == 0 then NoOutcome
    else
      var before, a := Stored(actions[..|actions| - 1]), actions[|actions| - 1];
      if before == NoOutcome && a.Build? then a.outcome else before
  }

  /** The first `Build` decides, whatever comes later. */
  lemma {:induction false} StoredIsTheFirst(actions: seq<Action>, i: nat)
    requires i < |actions| && actions[i].Build? && actions[i].outcome != NoOutcome
    requires forall j :: 0 <= j < i && actions[j].Build? ==> actions[j].outcome == NoOutcome
    ensures Stored(actions) == actions[i].outcome
  {
    if i == |actions| - 1 {
      StoredNothing(actions[..i]);
    } else {
      StoredIsTheFirst(actions[..|actions| - 1], i);
    }
  }

  lemma {:induction false} StoredNothing(actions: seq<Action>)
    requires forall j :: 0 <= j < |actions| && actions[j].Build? ==> actions[j].outcome == NoOutcome
    ensures Stored(actions) == NoOutcome
  {
    if |actions| > 0 { StoredNothing(actions[..|actions| - 1]); }
  }

  lemma {:induction false} OutcomeOfContinue(s: State)
    ensures ContinueNext(s).outcome == s.outcome && ContinueNext(s).producer == s.producer
  {
  }

  lemma {:induction false} OutcomeStep(s: State, a: Action)
    requires Control(s)
    ensures Next(s, a).outcome == s.outcome || (a.Build? && s.producer == Building && Next(s, a).outcome == a.outcome)
    ensures s.producer != Building ==> Next(s, a).outcome == s.outcome && Next(s, a).producer != Building
    ensures s.producer == Building && a.Build? && a.outcome != NoOutcome ==> Next(s, a).outcome == a.outcome
  {
    if a == Continue { OutcomeOfContinue(s); }
  }

  lemma {:induction false} OutcomeIsStored(actions: seq<Action>)
    ensures var s := Run(Initial(), actions);
            && (s.outcome == NoOutcome || s.outcome == Stored(actions))
            && (s.producer == Building ==> s.outcome == NoOutcome && Stored(actions) == NoOutcome)
            && (s.producer == Built ==> s.outcome == Stored(actions) != NoOutcome)
  {
    RunKeepsInv(Initial(), actions);
    if |actions| > 0 {
      var front, a := actions[..|actions| - 1], actions[|actions| - 1];
      var s := Run(Initial(), front);
      OutcomeIsStored(front);
      RunKeepsInv(Initial(), front);
      OutcomeStep(s, a);
      BuiltStep(s, a);
    }
  }

  lemma {:induction false} BuiltStep(s: State, a: Action)
    requires Control(s)
    ensures Next(s, a).producer == Built <==>
            (s.producer == Built && a != Publish) || (s.producer == Building && a.Build? && a.outcome != NoOutcome)
    ensures Next(s, a).producer == Building ==> s.producer == Building && !(a.Build? && a.outcome != NoOutcome)
  {
    if a == Continue { OutcomeOfContinue(s); }
  }

  /** The outcome that was stored first is the only one that is ever reported: by every `wait_for` that does not report
      idle, and by `status` between operations, once the producer has published and not before. */
  lemma {:induction false} StoredOutcomeIsReported(actions: seq<Action>)
    ensures var s := Run(Initial(), actions);
            && (forall i :: 0 <= i < |s.log.timedReturns| ==>
                  s.log.timedReturns[i].outcome == NoOutcome || s.log.timedReturns[i].outcome == Stored(actions))
            && (s.consumer == Ready ==> Status(s) == if Exchanged(s) then Stored(actions) else NoOutcome)
            && (s.consumer == Ready && Exchanged(s) ==> Stored(actions) != NoOutcome)
  {
    RunKeepsInv(Initial(), actions);
    OutcomeIsStored(actions);
    StatusIsIdleUntilPublished(actions);
  }

  // status(): what a consumer between two operations observes.
  function Status(s: State): Outcome {
    if s.pc == Idle then NoOutcome else s.outcome
  }

  lemma {:induction false} StatusIsIdleUntilPublished(actions: seq<Action>)
    ensures var s := Run(Initial(), actions);
            s.consumer == Ready ==> s.pc != ConsumerSet && (Status(s) == NoOutcome <==> !Exchanged(s))
  {
    RunKeepsInv(Initial(), actions);
  }

  // ---------- Both sides can always get through ----------

  lemma {:induction false} RunLast(s: State, front: seq<Action>, a: Action)
    ensures Run(s, front + [a]) == Next(Run(s, front), a)
  {
    assert (front + [a])[..|front|] == front;
  }

  lemma {:induction false} RunCons(s: State, a: Action, rest: seq<Action>)
    ensures Run(s, [a] + rest) == Run(Next(s, a), rest)
  {
    if rest == [] {
      assert [a] + rest == [] + [a];
      RunLast(s, [], a);
    } else {
      var front, last := rest[..|rest| - 1], rest[|rest| - 1];
      assert rest == front + [last];
      assert [a] + rest == ([a] + front) + [last];
      RunCons(s, a, front);
      RunLast(s, [a] + front, last);
      RunLast(Next(s, a), front, last);
    }
  }

  function ProducerLeft(p: Producer): nat {
    match p
    case Building => 5
    case Built => 4
    case Swapped(_) => 3
    case Resuming(_) => 2
    case Finishing => 1
    case Completed => 0
  }

  function ProducerMove(p: Producer): Action {
    match p
    case Building => Build(Value)
    case Built => Publish
    case Finishing => LeaveFinished
    case _ => Act
  }

  lemma {:induction false} ProducerMoves(s: State)
    requires Control(s) && s.producer != Completed
    ensures ProducerLeft(Next(s, ProducerMove(s.producer)).producer) < ProducerLeft(s.producer)
  {
  }

  lemma {:induction false} ProducerCanFinish(s: State) returns (more: seq<Action>)
    requires Inv(s)
    ensures Inv(Run(s, more)) && Run(s, more).producer == Completed
    decreases ProducerLeft(s.producer)
  {
    if s.producer == Completed {
      more := [];
    } else {
      var a := ProducerMove(s.producer);
      ProducerMoves(s);
      NextKeepsControl(s, a);
      NextKeepsHistory(s, a);
      var rest := ProducerCanFinish(Next(s, a));
      RunCons(s, a, rest);
      more := [a] + rest;
    }
  }

  function ConsumerLeft(c: Consumer): nat {
    match c
    case Gone => 0
    case Dropping(loaded) => if loaded then 1 else 2
    case Ready => 3
    case Waiting(w) => (match w case WaitSwap => 4 case WaitTest => 4 case WaitBlock => 5 case WaitAsleep => 6)
    case Awaiting(_, a) => (match a case AwaitWrite => 5 case AwaitSwap => 4 case Suspended => 4)
    case Timed(_, t) =>
      (match t
       case TimedWrite => 6 case TimedSwap => 5 case TimedBlocked => 5 case TimedRollback => 4 case TimedClear => 4)
    case Any(_, y) => (match y case AnyWrite => 6 case AnySwap => 5 case AnyRegistered => 4)
    case Rewinding(_, swapped) => if swapped then 4 else 5
    case Sharing(h) => (match h case ShareWrite => 6 case ShareSwap => 5 case ShareFinish => 4 case Shared => 3)
  }

  function ConsumerMove(c: Consumer): Action {
    match c
    case Ready => BeginDrop
    case Any(_, y) => if y == AnyRegistered then BeginRewind else Continue
    case Sharing(h) => if h == Shared then DropShared else Continue
    case _ => Continue
  }

  lemma {:induction false} ConsumerMoves(s: State)
    requires Control(s) && s.producer == Completed && s.consumer != Gone
    ensures var t := Next(s, ConsumerMove(s.consumer));
            t.producer == Completed && ConsumerLeft(t.consumer) < ConsumerLeft(s.consumer)
  {
    if s.consumer.Timed? { TimedMoves(s); }
  }

  lemma {:induction false} TimedMoves(s: State)
    requires Control(s) && s.producer == Completed && s.consumer.Timed?
    ensures var t := ContinueNext(s); t.producer == Completed && ConsumerLeft(t.consumer) < ConsumerLeft(s.consumer)
  {
  }

  lemma {:induction false} ConsumerCanLeave(s: State) returns (more: seq<Action>)
    requires Inv(s) && s.producer == Completed
    ensures Inv(Run(s, more)) && Run(s, more).producer == Completed && Run(s, more).consumer == Gone
    decreases ConsumerLeft(s.consumer)
  {
    if s.consumer == Gone {
      more := [];
    } else {
      var a := ConsumerMove(s.consumer);
      ConsumerMoves(s);
      NextKeepsControl(s, a);
      NextKeepsHistory(s, a);
      var rest := ConsumerCanLeave(Next(s, a));
      RunCons(s, a, rest);
      more := [a] + rest;
    }
  }

  lemma {:induction false} RunAppend(s: State, a: seq<Action>, b: seq<Action>)
    ensures Run(s, a + b) == Run(Run(s, a), b)
    decreases |b|
  {
    if b == [] {
      assert a + b == a;
    } else {
      var front, last := b[..|b| - 1], b[|b| - 1];
      assert b == front + [last] && a + b == (a + front) + [last];
      RunAppend(s, a, front);
      RunLast(s, a + front, last);
      RunLast(Run(s, a), front, last);
    }
  }

  /** Nobody ever gets stuck: from every reachable state the producer alone can get through, and then the consumer;
      after that the state has been deleted exactly once. */
  lemma {:induction false} BothSidesCanFinish(actions: seq<Action>) returns (more: seq<Action>)
    ensures var t := Run(Run(Initial(), actions), more);
            t.producer == Completed && t.consumer == Gone && t.deletes == 1
  {
    RunKeepsInv(Initial(), actions);
    var s := Run(Initial(), actions);
    var first := ProducerCanFinish(s);
    var second := ConsumerCanLeave(Run(s, first));
    RunAppend(s, first, second);
    more := first + second;
  }

  // ---------- What the operations return ----------

  /** `wait` and `await` return only when the result is published, and the consumer may then consume it. A suspended
      `await` goes on by the producer's step alone. */
  lemma {:induction false} ReturnMeansReady(actions: seq<Action>, a: Action)
    requires var s := Run(Initial(), actions); s.consumer.Waiting? || s.consumer.Awaiting?
    ensures var s := Run(Initial(), actions);
            var t := Next(s, a);
            && (t.consumer == Ready ==> t.joined && t.pc == ProducerDone && Next(t, DropJoined).consumer == Gone)
            && (t.consumer == Ready && s.consumer.Awaiting? && s.consumer.a == Suspended ==>
                  a == Act && t.log.resumed == s.log.resumed + [s.consumer.op])
            && (t.consumer == Ready && s.consumer.Awaiting? && s.consumer.a != Suspended ==>
                  s.consumer.op in t.log.refused && t.log.resumed == s.log.resumed)
  {
    RunKeepsInv(Initial(), actions);
    if Next(Run(Initial(), actions), a).consumer == Ready { ReadyStep(Run(Initial(), actions), a); }
  }

  lemma {:induction false} ReadyStep(s: State, a: Action)
    requires Control(s) && (s.consumer.Waiting? || s.consumer.Awaiting?) && Next(s, a).consumer == Ready
    ensures Next(s, a).joined && Next(s, a).pc == ProducerDone
    ensures s.consumer.Awaiting? && s.consumer.a == Suspended ==>
              a == Act && Next(s, a).log.resumed == s.log.resumed + [s.consumer.op]
    ensures s.consumer.Awaiting? && s.consumer.a != Suspended ==>
              s.consumer.op in Next(s, a).log.refused && Next(s, a).log.resumed == s.log.resumed
  {
    if a == Continue { ReadyContinue(s); }
  }

  lemma {:induction false} ReadyContinue(s: State)
    requires Control(s) && (s.consumer.Waiting? || s.consumer.Awaiting?) && ContinueNext(s).consumer == Ready
    ensures ContinueNext(s).joined && ContinueNext(s).pc == ProducerDone
    ensures !(s.consumer.Awaiting? && s.consumer.a == Suspended)
    ensures s.consumer.Awaiting? ==>
              s.consumer.op in ContinueNext(s).log.refused && ContinueNext(s).log.resumed == s.log.resumed
  {
  }

  // The consumer's operations on a state between operations.
  function Begin(k: nat): Action {
    if k == 0 then BeginWait else if k == 1 then BeginAwait else if k == 2 then BeginTimed
    else if k == 3 then BeginAny else BeginShare
  }

  // The operation has registered with the producer, who has not exchanged.
  predicate RegisteredAs(s: State, k: nat, op: nat) {
    match k
    case 0 => s.pc == ConsumerWaiting && s.consumer == Waiting(WaitTest)
    case 1 => s.pc == ConsumerSet && s.slot == AwaitSlot(op) && s.consumer == Awaiting(op, Suspended)
    case 2 => s.pc == ConsumerSet && s.slot == WaitForSlot(op) && s.consumer == Timed(op, TimedBlocked)
    case 3 => s.pc == ConsumerSet && s.slot == WhenAnySlot(op) && s.consumer == Any(op, AnyRegistered)
    case _ => s.pc == ConsumerSet && s.slot == SharedSlot && s.consumer == Sharing(Shared)
  }

  /** An operation that begins before the result is published registers, if the producer does not move; one that begins
      afterwards does not touch the consumer context: `wait`, `await` and `wait_for` return at once, `when_any` reports
      the result, and `share` calls `on_result_finished` itself. */
  lemma {:induction false} OperationOutcome(actions: seq<Action>, k: nat)
    requires k <= 4 && Run(Initial(), actions).consumer == Ready
    ensures var s := Run(Initial(), actions);
            var t := Next(s, Begin(k));
            var u := if k == 0 then Next(t, Continue) else Next(Next(t, Continue), Continue);
            if !Exchanged(s) then RegisteredAs(u, k, s.nextOp)
            else
              && t.slot == s.slot && t.pc == ProducerDone
              && (k <= 2 ==> t.consumer == Ready) && (k <= 1 ==> t.joined)
              && (k == 1 ==> s.nextOp in t.log.refused)
              && (k == 3 ==> t.consumer == Any(s.nextOp, AnyRegistered))
              && (k == 4 ==> Next(t, Continue).finishedCalls == 1 && Next(t, Continue).consumer == Sharing(Shared))
  {
    RunKeepsInv(Initial(), actions);
    OutcomeOf(Run(Initial(), actions), k);
  }

  lemma {:induction false} OutcomeOf(s: State, k: nat)
    requires Control(s) && k <= 4 && s.consumer == Ready
    ensures var t := Next(s, Begin(k));
            var u := if k == 0 then Next(t, Continue) else Next(Next(t, Continue), Continue);
            !Exchanged(s) ==> RegisteredAs(u, k, s.nextOp)
    ensures var t := Next(s, Begin(k));
            Exchanged(s) ==>
              && t.slot == s.slot && t.pc == ProducerDone
              && (k <= 2 ==> t.consumer == Ready) && (k <= 1 ==> t.joined)
              && (k == 1 ==> s.nextOp in t.log.refused)
              && (k == 3 ==> t.consumer == Any(s.nextOp, AnyRegistered))
              && (k == 4 ==> Next(t, Continue).finishedCalls == 1 && Next(t, Continue).consumer == Sharing(Shared))
  {
  }

  /** Before the producer exchanges, a registration can be taken back: a `wait_for` that times out and a `when_any` that
      is rewound leave the state idle with an empty consumer context, and the last `shared_result` leaves it to the
      producer. After the exchange the consumer goes on at once. */
  lemma {:induction false} TakeBackOutcome(actions: seq<Action>)
    ensures var s := Run(Initial(), actions);
            var timed := Next(Next(Next(s, TimeOut), Continue), Continue);
            var any, shared := Next(s, BeginRewind), Next(s, DropShared);
            && (s.consumer.Timed? && s.consumer.t == TimedBlocked && !Exchanged(s) ==>
                  && timed.consumer == Ready && timed.pc == Idle && timed.slot == Empty
                  && timed.log.timedReturns == s.log.timedReturns + [TimedReturn(s.consumer.op, NoOutcome)])
            && (s.consumer.Any? && s.consumer.y == AnyRegistered ==>
                  if Exchanged(s) then any.consumer == Ready && any.pc == ProducerDone
                  else
                    var t := Next(Next(any, Continue), Continue);
                    t.consumer == Ready && t.pc == Idle && t.slot == Empty)
            && (s.consumer == Sharing(Shared) && s.producer != Finishing ==>
                  if Exchanged(s) then shared.consumer == Dropping(false)
                  else
                    var t := Next(Next(shared, Continue), Continue);
                    && t.consumer == Dropping(false) && t.pc == Idle && t.slot == Empty
                    && Next(Next(t, Continue), Continue).consumer == Gone
                    && Next(Next(t, Continue), Continue).pc == ConsumerDone)
  {
    RunKeepsInv(Initial(), actions);
    var s := Run(Initial(), actions);
    TimedTakeBack(s);
    AnyTakeBack(s);
    SharedTakeBack(s);
  }

  /** A producer whose consumer has left deletes the state, whether it stored an outcome or not. */
  lemma {:induction false} AbandonedResultIsDeleted(actions: seq<Action>)
    requires var s := Run(Initial(), actions); s.consumer == Gone && (s.producer == Building || s.producer == Built)
    ensures var t := Next(Next(Run(Initial(), actions), Publish), Act);
            t.deletes == 1 && t.producer == Completed
  {
    RunKeepsInv(Initial(), actions);
  }

  /** A `wait` for a result that is not published blocks, and stays blocked until the producer exchanges. */
  lemma {:induction false} WaitSleeps(actions: seq<Action>)
    requires var s := Run(Initial(), actions); s.consumer == Waiting(WaitTest) && !Exchanged(s)
    ensures var t := Next(Next(Run(Initial(), actions), Continue), Continue);
            t.consumer == Waiting(WaitAsleep) && Next(t, Continue) == t
  {
    RunKeepsInv(Initial(), actions);
  }

  lemma {:induction false} TimedTakeBack(s: State)
    requires Control(s)
    ensures var timed := Next(Next(Next(s, TimeOut), Continue), Continue);
            s.consumer.Timed? && s.consumer.t == TimedBlocked && !Exchanged(s) ==>
              && timed.consumer == Ready && timed.pc == Idle && timed.slot == Empty
              && timed.log.timedReturns == s.log.timedReturns + [TimedReturn(s.consumer.op, NoOutcome)]
  {
  }

  lemma {:induction false} AnyTakeBack(s: State)
    requires Control(s)
    ensures var any := Next(s, BeginRewind);
            s.consumer.Any? && s.consumer.y == AnyRegistered ==>
              if Exchanged(s) then any.consumer == Ready && any.pc == ProducerDone
              else
                var t := Next(Next(any, Continue), Continue);
                t.consumer == Ready && t.pc == Idle && t.slot == Empty
  {
  }

  lemma {:induction false} SharedTakeBack(s: State)
    requires Control(s)
    ensures var shared := Next(s, DropShared);
            s.consumer == Sharing(Shared) && s.producer != Finishing ==>
              if Exchanged(s) then shared.consumer == Dropping(false)
              else
                var t := Next(Next(shared, Continue), Continue);
                && t.consumer == Dropping(false) && t.pc == Idle && t.slot == Empty
                && Next(Next(t, Continue), Continue).consumer == Gone
                && Next(Next(t, Continue), Continue).pc == ConsumerDone
  {
  }

  // ---------- Callers that never meet a deleted state ----------

  // The consumer takes a registration back, or drops the last shared_result.
  predicate TakesBack(a: Action) {
    a == TimeOut || a == BeginRewind || a == DropShared
  }

  predicate Steadfast(s: State) {
    && !s.log.overtaken && !s.consumer.Rewinding?
    && (s.consumer.Timed? ==> s.consumer.t != TimedRollback && s.consumer.t != TimedClear)
  }

  lemma {:induction false} SteadfastStep(s: State, a: Action)
    requires Steadfast(s) && !TakesBack(a)
    ensures Steadfast(Next(s, a))
  {
    if a == Act { SteadfastAct(s); } else if a == Continue { SteadfastContinue(s); }
  }

  lemma {:induction false} SteadfastAct(s: State)
    requires Steadfast(s)
    ensures Steadfast(Next(s, Act))
  {
  }

  lemma {:induction false} SteadfastContinue(s: State)
    requires Steadfast(s)
    ensures Steadfast(ContinueNext(s))
  {
  }

  lemma {:induction false} SteadfastRun(actions: seq<Action>)
    requires forall i :: 0 <= i < |actions| ==> !TakesBack(actions[i])
    ensures Steadfast(Run(Initial(), actions))
  {
    if |actions| > 0 {
      SteadfastRun(actions[..|actions| - 1]);
      SteadfastStep(Run(Initial(), actions[..|actions| - 1]), actions[|actions| - 1]);
    }
  }

  /** If no `wait_for` times out, no `when_any` registration is taken back and no last `shared_result` is dropped, the
      producer never reads the consumer context of a deleted state. */
  lemma {:induction false} ReadIsSafeWithoutTakingBack(actions: seq<Action>)
    requires forall i :: 0 <= i < |actions| ==> !TakesBack(actions[i])
    ensures var s := Run(Initial(), actions); !(s.deletes == 1 && s.producer == Swapped(ConsumerSet))
  {
    SteadfastRun(actions);
    ConsumerContextRead(actions);
  }

  predicate NeverWaited(s: State) {
    !s.consumer.Waiting? && s.pc != ConsumerWaiting && s.producer != Swapped(ConsumerWaiting)
  }

  lemma {:induction false} NeverWaitedStep(s: State, a: Action)
    requires NeverWaited(s) && a != BeginWait
    ensures NeverWaited(Next(s, a))
  {
    if a == Act { NeverWaitedAct(s); } else if a == Continue { NeverWaitedContinue(s); }
  }

  lemma {:induction false} NeverWaitedAct(s: State)
    requires NeverWaited(s)
    ensures NeverWaited(Next(s, Act))
  {
  }

  lemma {:induction false} NeverWaitedContinue(s: State)
    requires NeverWaited(s)
    ensures NeverWaited(ContinueNext(s))
  {
  }

  lemma {:induction false} NeverWaitedRun(actions: seq<Action>)
    requires BeginWait !in actions
    ensures NeverWaited(Run(Initial(), actions))
  {
    if |actions| > 0 {
      NeverWaitedRun(actions[..|actions| - 1]);
      NeverWaitedStep(Run(Initial(), actions[..|actions| - 1]), actions[|actions| - 1]);
    }
  }

  /** If moreover nobody waits synchronously, as when results are only awaited, no deleted state is ever used. */
  lemma {:induction false} NeverTouchedAfterDeletion(actions: seq<Action>)
    requires BeginWait !in actions && forall i :: 0 <= i < |actions| ==> !TakesBack(actions[i])
    ensures var s := Run(Initial(), actions); s.deletes == 1 ==> s.consumer == Gone && !ProducerTouches(s.producer)
  {
    ReadIsSafeWithoutTakingBack(actions);
    NeverWaitedRun(actions);
    TouchedAfterDeletionIff(actions);
  }

  // ---------- A timed-out wait_for leaves no trace ----------

  predicate OfProducer(a: Action) {
    a.Build? || a.Publish? || a.Act? || a.LeaveFinished?
  }

  function ProducerOnly(actions: seq<Action>): (only: seq<Action>)
    ensures forall i :: 0 <= i < |only| ==> OfProducer(only[i])
  {
    if |actions| == 0 then []
    else
      var front := ProducerOnly(actions[..|actions| - 1]);
      if OfProducer(actions[|actions| - 1]) then front + [actions[|actions| - 1]] else front
  }

  // t with the operation number and the wait_for log of s.
  function Relog(t: State, s: State): State {
    t.(nextOp := s.nextOp, log := t.log.(timedReturns := s.log.timedReturns))
  }

  // t with the pending wait_for undone.
  function Undone(t: State, s: State): State {
    Relog(t, s).(consumer := Ready, slot := s.slot, pc := if t.pc == ConsumerSet then Idle else t.pc)
  }

  predicate StillIdle(t: State, s: State, op: nat) {
    || (t.consumer.Timed? && t.consumer.op == op && (t.consumer.t == TimedClear || !Exchanged(t)))
    || (t.consumer == Ready && t.slot == Empty && t.pc != ConsumerSet
        && t.log.timedReturns == s.log.timedReturns + [TimedReturn(op, NoOutcome)])
  }

  predicate Reported(t: State, s: State, op: nat) {
    || (t.consumer.Timed? && t.consumer.op == op && t.consumer.t != TimedClear && Exchanged(t))
    || (t.consumer == Ready && |t.log.timedReturns| > 0
        && t.log.timedReturns[|t.log.timedReturns| - 1].outcome != NoOutcome)
  }

  // While the episode lasts: u is the same run without the wait_for.
  predicate Episode(s: State, t: State, u: State, op: nat) {
    && (t.consumer.Timed? ==> t.log.timedReturns == s.log.timedReturns)
    && (Reported(t, s, op) || (StillIdle(t, s, op) && Undone(t, s) == u))
  }

  lemma {:induction false} EpisodeResumeStep(s: State, t: State, u: State, op: nat)
    requires Inv(t) && s.consumer == Ready && s.slot == Empty && t.producer.Resuming?
    requires Episode(s, t, u, op)
    ensures Episode(s, Next(t, Act), Next(u, Act), op)
  {
  }

  lemma {:induction false} EpisodeActStep(s: State, t: State, u: State, op: nat)
    requires Inv(t) && s.consumer == Ready && s.slot == Empty
    requires Episode(s, t, u, op)
    ensures Episode(s, Next(t, Act), Next(u, Act), op)
  {
    if t.producer.Resuming? { EpisodeResumeStep(s, t, u, op); }
  }

  lemma {:induction false} EpisodeProducerStep(s: State, t: State, u: State, op: nat, a: Action)
    requires Inv(t) && s.consumer == Ready && s.slot == Empty
    requires OfProducer(a) && Episode(s, t, u, op)
    ensures Episode(s, Next(t, a), Next(u, a), op)
  {
    if a == Act { EpisodeActStep(s, t, u, op); }
  }

  lemma {:induction false} EpisodeConsumerStep(s: State, t: State, u: State, op: nat, a: Action)
    requires Inv(t) && s.consumer == Ready && s.slot == Empty
    requires (a == Continue || a == TimeOut) && Episode(s, t, u, op)
    ensures Episode(s, Next(t, a), u, op)
  {
  }

  lemma {:induction false} EpisodeRun(s: State, actions: seq<Action>)
    requires Inv(s) && s.consumer == Ready && s.pc == Idle
    requires forall i :: 0 <= i < |actions| ==>
               OfProducer(actions[i]) || actions[i] == Continue || actions[i] == TimeOut
    ensures Inv(Run(Next(s, BeginTimed), actions))
    ensures Episode(s, Run(Next(s, BeginTimed), actions), Run(s, ProducerOnly(actions)), s.nextOp)
  {
    if |actions| == 0 {
      NextKeepsControl(s, BeginTimed);
      NextKeepsHistory(s, BeginTimed);
      assert Relog(Next(s, BeginTimed), s).(consumer := Ready) == s;
    } else {
      var front, a := actions[..|actions| - 1], actions[|actions| - 1];
      EpisodeRun(s, front);
      var t, u := Run(Next(s, BeginTimed), front), Run(s, ProducerOnly(front));
      NextKeepsControl(t, a);
      NextKeepsHistory(t, a);
      if OfProducer(a) {
        assert (ProducerOnly(front) + [a])[..|ProducerOnly(front)|] == ProducerOnly(front);
        EpisodeProducerStep(s, t, u, s.nextOp, a);
      } else {
        EpisodeConsumerStep(s, t, u, s.nextOp, a);
      }
    }
  }

  /** A `wait_for` that times out and reports idle is invisible: however the producer's steps
      are interleaved with it, the state it leaves is the one that the producer's steps alone
      would have produced, apart from the record of the call itself. */
  lemma {:induction false} TimedOutWaitIsInvisible(before: seq<Action>, actions: seq<Action>)
    requires Run(Initial(), before).consumer == Ready && Run(Initial(), before).pc == Idle
    requires forall i :: 0 <= i < |actions| ==>
               OfProducer(actions[i]) || actions[i] == Continue || actions[i] == TimeOut
    ensures var s := Run(Initial(), before);
            var t := Run(Next(s, BeginTimed), actions);
            t.consumer == Ready && t.log.timedReturns == s.log.timedReturns + [TimedReturn(s.nextOp, NoOutcome)] ==>
              Relog(t, s) == Run(s, ProducerOnly(actions))
  {
    RunKeepsInv(Initial(), before);
    EpisodeRun(Run(Initial(), before), actions);
  }

  /** Otherwise the result is published already and `wait_for` returns it at once. */
  lemma {:induction false} PublishedResultIsReturnedAtOnce(before: seq<Action>)
    requires Run(Initial(), before).consumer == Ready && Run(Initial(), before).pc != Idle
    ensures var s := Run(Initial(), before);
            var t := Next(s, BeginTimed);
            && t.consumer == Ready && t.pc == ProducerDone && t.slot == s.slot
            && t.log.timedReturns == s.log.timedReturns + [TimedReturn(s.nextOp, s.outcome)]
            && (s.outcome == Value || s.outcome == Exception)
  {
    RunKeepsInv(Initial(), before);
  }
}
