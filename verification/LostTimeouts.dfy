/** How the wake-up of a timeout is lost: exactly when, for how long, and on which input. */
module LostTimeouts {
  import opened Wrappers
  import opened Tasks
  import opened Runtime
  import opened Tickets
  import opened TicketSteps
  import opened Calls
  import opened Safety
  import opened Wakeups
  import opened Lambdas
  import Guarantees
  import Sleeps

  // ----- how a timeout is lost -----

  /** The fiber has not ended and is inside this blocking call. */
  predicate InCall(fs: Fibers, f: FiberId, c: CallId) {
    Alive(fs, f) && fs[f].io == Some(c)
  }

  predicate Holds(slots: map<Slot, Work>, k: Slot, f: FiberId) {
    k in slots && slots[k] == FiberWork(f)
  }

  /** The fiber waits in the slot of its blocking call. */
  predicate WaitsIn(s: State, c: CallId, f: FiberId) {
    c in s.calls && s.calls[c].stage == Parked && InCall(s.fibers, f, c) && Holds(s.slots, s.calls[c].slot, f)
  }

  /** It still waits there although its timeout was noticed. */
  predicate Lost(s: State, c: CallId, f: FiberId) {
    WaitsIn(s, c, f) && s.calls[c].timedOutAt.Some?
  }

  /** The two steps that lose a timeout: addEvent after the lambda has already run, and a run of the
      lambda whose epoll_ctl is refused. */
  predicate Loses(s: State, step: Step, c: CallId, f: FiberId) {
    && step.InFiber? && Runs(s, step.w) && c in s.calls
    && match step.act
       case IoAdd(ok) => ok && Current(s, step.w) == f && Self(s, step.w).io == Some(c) && s.calls[c].timedOutAt.Some?
       case RunTimeout(ok) => !ok && Self(s, step.w).body == Some(Timeout(c, s.calls[c].slot)) && WaitsIn(s, c, f)
       case _ => false
  }

  /** A live, unmarked lambda runs and cancelEvent succeeds. */
  predicate CancelsSlot(s: State, w: WorkerId, step: FiberStep, k: Slot) {
    && step == RunTimeout(true) && RunsBody(s, w) && Self(s, w).body.value.Timeout?
    && Self(s, w).body.value.slot == k
    && Self(s, w).body.value.call in s.calls && s.calls[Self(s, w).body.value.call].timedOutAt == None
  }

  /** The step empties slot `k`: its event is delivered, deleted or cancelled. */
  predicate Frees(s: State, step: Step, k: Slot) {
    match step
    case OnWorker(_, IdleReady(fd, events, ok)) => ok && k.fd == fd && k.event in events
    case Program(_, DelEvent(slot, ok)) => ok && slot == k
    case Program(_, CancelEvent(slot, ok)) => ok && slot == k
    case Program(_, CancelAll(fd, ok)) => ok && k.fd == fd
    case InFiber(w, act) => CancelsSlot(s, w, act, k)
    case _ => false
  }

  lemma TriggerFrees(s: State, trigger: Slot, k: Slot, f: FiberId)
    ensures Holds(Trigger(s, trigger).slots, k, f) <==> Holds(s.slots, k, f) && trigger != k
  {}

  lemma BothFree(s: State, fd: nat, events: set<Event>, k: Slot, f: FiberId)
    ensures Holds(TriggerBoth(s, fd, events).slots, k, f) <==> Holds(s.slots, k, f) && !(k.fd == fd && k.event in events)
  {
    hide Trigger, Holds;
    var r, w := Slot(fd, Read), Slot(fd, Write);
    TriggerFrees(s, r, k, f);
    TriggerFrees(s, w, k, f);
    TriggerFrees(Trigger(s, r), w, k, f);
    assert k == Slot(k.fd, k.event) && (k.event.Read? || k.event.Write?);
  }

  lemma PostRunSlots(s: State, w: WorkerId)
    requires CanPostRun(s, w)
    ensures PostRunStep(s, w).slots == s.slots
  {
    hide Settled;
  }

  lemma DispatchSlots(s: State, w: WorkerId, spare: FiberId)
    requires CanDispatch(s, w, spare)
    ensures DispatchStep(s, w, spare).slots == s.slots
  {}

  lemma WorkSlots(s: State, w: WorkerId, step: WorkerStep, k: Slot, f: FiberId)
    requires CanWork(s, w, step)
    ensures Holds(WorkStep(s, w, step).slots, k, f) <==> Holds(s.slots, k, f) && !Frees(s, OnWorker(w, step), k)
  {
    hide Holds, TriggerBoth, ExpiryOrder, Stopping, DispatchStep, PostRunStep, RemoveAt, FirstEligible, ExecIds;
    match step
    case IdleReady(fd, events, _) => BothFree(s, fd, events, k, f);
    case Dispatch(spare) => DispatchSlots(s, w, spare);
    case PostRun => PostRunSlots(s, w);
    case _ =>
  }

  lemma ActSlots(s: State, who: Option<WorkerId>, action: Action, k: Slot, f: FiberId)
    requires CanAct(s, action)
    ensures Holds(ActStep(s, action).slots, k, f) <==> Holds(s.slots, k, f) && !Frees(s, Program(who, action), k)
  {
    hide TriggerBoth, NoTicket, NotOnCpu, NotCbFiber;
    if action.CancelAll? {
      BothFree(s, action.fd, {Read, Write}, k, f);
      assert k.event.Read? || k.event.Write?;
    }
  }

  lemma DispatchFiberIn(s: State, w: WorkerId, spare: FiberId, f: FiberId, c: CallId)
    requires CanDispatch(s, w, spare) && s.workers[w].pc.task.work.FiberWork?
    ensures InCall(DispatchStep(s, w, spare).fibers, f, c) <==> InCall(s.fibers, f, c)
  {
    var g, fs := s.workers[w].pc.task.work.fiber, DispatchStep(s, w, spare).fibers;
    assert if Alive(s.fibers, g) then fs == s.fibers[g := s.fibers[g].(state := Exec)] else fs == s.fibers;
  }

  lemma DispatchCallIn(s: State, w: WorkerId, spare: FiberId, f: FiberId, c: CallId)
    requires CanDispatch(s, w, spare) && s.workers[w].pc.task.work.CallWork?
    requires s.workers[w].cbFiber.Some? ==>
               s.workers[w].cbFiber.value in s.fibers && s.fibers[s.workers[w].cbFiber.value].io == None
    ensures InCall(DispatchStep(s, w, spare).fibers, f, c) <==> InCall(s.fibers, f, c)
  {}

  lemma PostRunIn(s: State, w: WorkerId, f: FiberId, c: CallId)
    requires CanPostRun(s, w)
    ensures InCall(PostRunStep(s, w).fibers, f, c) <==> InCall(s.fibers, f, c)
  {
    var g := s.workers[w].pc.fiber;
    assert PostRunStep(s, w).fibers == s.fibers[g := Settled(s.fibers[g], s.workers[w].pc.viaCb)];
  }

  lemma WorkIn(s: State, w: WorkerId, step: WorkerStep, f: FiberId, c: CallId)
    requires TicketInv(s) && CanWork(s, w, step)
    ensures InCall(WorkStep(s, w, step).fibers, f, c) <==> InCall(s.fibers, f, c)
  {
    hide TicketInv, InCall, TriggerBoth, ExpiryOrder, Stopping, DispatchStep, PostRunStep, RemoveAt, FirstEligible, ExecIds;
    match step
    case IdleReady(fd, events, _) => TriggerBothFrame(s, fd, events);
    case Dispatch(spare) =>
      if s.workers[w].pc.task.work.FiberWork? {
        DispatchFiberIn(s, w, spare, f, c);
      } else {
        if s.workers[w].cbFiber.Some? {
          CbFiberFresh(s, w, spare);
        }
        DispatchCallIn(s, w, spare, f, c);
      }
    case PostRun => PostRunIn(s, w, f, c);
    case _ =>
  }

  lemma ActIn(s: State, action: Action, f: FiberId, c: CallId)
    requires CanAct(s, action)
    ensures InCall(ActStep(s, action).fibers, f, c) <==> InCall(s.fibers, f, c)
  {
    hide Trigger, TriggerBoth, NoTicket, NotOnCpu, NotCbFiber;
    if action.CancelEvent? {
      TriggerFrame(s, action.slot);
    } else if action.CancelAll? {
      TriggerBothFrame(s, action.fd, {Read, Write});
    }
  }

  /** Outside fibers, a call stops waiting exactly by its slot being emptied, and none starts to wait. */
  lemma OutsideWaits(s: State, step: Step, c: CallId, f: FiberId)
    requires Inv(s) && Enabled(s, step) && !step.InFiber?
    ensures var t := Next(s, step);
            t.calls == s.calls && (WaitsIn(t, c, f) <==> WaitsIn(s, c, f) && !Frees(s, step, s.calls[c].slot))
  {
    hide TicketInv, CallInv, CountActive, CanWork, WorkStep, CanAct, ActStep, InCall, Holds, Frees;
    SameRecords(s, step);
    if c in s.calls {
      match step
      case Tick(_) => NoFree(s, step, s.calls[c].slot);
      case OnWorker(w, work) => WorkSlots(s, w, work, s.calls[c].slot, f); WorkIn(s, w, work, f, c);
      case Program(who, action) => ActSlots(s, who, action, s.calls[c].slot, f); ActIn(s, action, f, c);
    }
  }

  lemma NoFree(s: State, step: Step, k: Slot)
    requires step.Tick?
    ensures !Frees(s, step, k)
  {}

  // ----- steps inside fibers -----

  /** The running fiber puts itself into slot `k`. */
  predicate Registers(s: State, w: WorkerId, step: FiberStep, k: Slot)
    requires CanRun(s, w, step)
  {
    step == WaitEvent(k, true) || (step == IoAdd(true) && s.calls[Self(s, w).io.value].slot == k)
  }

  lemma IoSlots(s: State, w: WorkerId, step: FiberStep)
    requires CanRun(s, w, step) && (step.IoDone? || step.IoTimer? || step == IoAdd(false) || step.IoWake?)
    ensures RunStep(s, w, step).slots == s.slots
  {}

  lemma InsideSlots(s: State, w: WorkerId, step: FiberStep, k: Slot, f: FiberId)
    requires CanRun(s, w, step)
    ensures Runs(s, w)
    ensures Holds(RunStep(s, w, step).slots, k, f) <==>
              (Holds(s.slots, k, f) && !CancelsSlot(s, w, step, k)) || (Registers(s, w, step, k) && Current(s, w) == f)
  {
    hide IoReturnStep, IoTimerStep, IoWakeStep;
    if step.IoDone? || step.IoTimer? || step == IoAdd(false) || step.IoWake? {
      IoSlots(s, w, step);
    }
  }

  lemma ArmedLeaves(s: State, w: WorkerId, step: FiberStep)
    requires CanRun(s, w, step) && Runs(s, w) && Self(s, w).armed
    ensures step == YieldHold
  {}

  lemma SlotIsPending(s: State, k: Slot, f: FiberId)
    requires Holds(s.slots, k, f)
    ensures f in AllTickets(s)
  {
    hide AllTickets;
    Guarantees.PendingSomewhere(s, f);
    assert TicketAt(s, f, InSlot(k));
  }

  /** A fiber that waits in a slot and is still on its worker can only switch out. */
  lemma WaiterLeaves(s: State, w: WorkerId, step: FiberStep, k: Slot)
    requires TicketInv(s) && Runs(s, w) && CanRun(s, w, step) && Holds(s.slots, k, Current(s, w))
    ensures step == YieldHold
  {
    hide TicketInv, CanRun, Holds, AllTickets;
    SlotIsPending(s, k, Current(s, w));
    PendingIsArmed(s, w);
    ArmedLeaves(s, w, step);
  }

  lemma LeavesIn(s: State, w: WorkerId, f: FiberId, c: CallId)
    requires CanRun(s, w, YieldHold)
    ensures InCall(RunStep(s, w, YieldHold).fibers, f, c) <==> InCall(s.fibers, f, c)
  {}

  lemma ProgramWaits(s: State, w: WorkerId, k: Slot, c: CallId)
    requires CanRun(s, w, WaitEvent(k, true))
    ensures !InCall(RunStep(s, w, WaitEvent(k, true)).fibers, Current(s, w), c)
  {}

  lemma AddEffect(s: State, w: WorkerId)
    requires CanRun(s, w, IoAdd(true))
    ensures
      var c, f, t := Self(s, w).io.value, Current(s, w), RunStep(s, w, IoAdd(true));
      && t.fibers == s.fibers[f := s.fibers[f].(armed := true)]
      && t.calls == s.calls[c := s.calls[c].(stage := Parked)] && t.slots == s.slots[s.calls[c].slot := FiberWork(f)]
  {
    hide IoReturnStep;
  }

  lemma AddWaits(s: State, w: WorkerId)
    requires TicketInv(s) && CanRun(s, w, IoAdd(true))
    ensures WaitsIn(RunStep(s, w, IoAdd(true)), Self(s, w).io.value, Current(s, w))
  {
    hide TicketInv, RunStep;
    SelfIsExec(s, w);
    AddEffect(s, w);
  }

  /** The step marks call `c`. */
  predicate Marks(s: State, w: WorkerId, step: FiberStep, c: CallId)
    requires CanRun(s, w, step)
  {
    step.RunTimeout? && Self(s, w).body.value.call == c && c in s.calls && s.calls[c].timedOutAt == None
  }

  lemma OtherRecord(s: State, w: WorkerId, step: FiberStep, c: CallId)
    requires CanRun(s, w, step) && c in s.calls && c < s.nextCall && (Self(s, w).io == Some(c) ==> step == YieldHold)
    ensures var calls := RunStep(s, w, step).calls;
            c in calls && calls[c] == if Marks(s, w, step, c) then s.calls[c].(timedOutAt := Some(s.now)) else s.calls[c]
  {
    hide Trigger;
    if step.RunTimeout? {
      var c, k := Self(s, w).body.value.call, Self(s, w).body.value.slot;
      if c in s.calls {
        TriggerFrame(ClearBody(s, w).(calls := s.calls[c := s.calls[c].(timedOutAt := Some(s.now))]), k);
      }
    }
  }

  lemma OneOwner(s: State, f: FiberId, g: FiberId, c: CallId)
    requires Inv(s) && f in s.fibers && g in s.fibers && s.fibers[f].io == s.fibers[g].io == Some(c)
    ensures f == g && c in s.calls
  {
    hide TicketInv, CountActive, BodiesRun, Records, CallTimers, QueueRipe, HandsRipe, BodiesRipe, SlotsPlain, Finished;
  }

  predicate Enters(s: State, w: WorkerId, step: FiberStep, c: CallId, f: FiberId)
    requires Runs(s, w)
  {
    step == IoAdd(true) && Current(s, w) == f && Self(s, w).io == Some(c)
  }

  /** Inside fibers, a call starts to wait exactly by its own addEvent. */
  lemma InsideWaits(s: State, w: WorkerId, step: FiberStep, c: CallId, f: FiberId)
    requires Inv(s) && CanRun(s, w, step) && c in s.calls
    ensures Runs(s, w)
    ensures WaitsIn(RunStep(s, w, step), c, f) <==>
              (WaitsIn(s, c, f) && !CancelsSlot(s, w, step, s.calls[c].slot)) || Enters(s, w, step, c, f)
  {
    hide TicketInv, CallInv, CountActive, RunStep, CanRun, InCall, Holds, CancelsSlot, Registers;
    RunsInside(s, w, step);
    CallKnown(s, c);
    if WaitsIn(s, c, f) {
      StillWaits(s, w, step, c, f);
    } else if Enters(s, w, step, c, f) {
      AddWaits(s, w);
    } else if WaitsIn(RunStep(s, w, step), c, f) {
      NotYetWaits(s, w, step, c, f);
    }
  }

  lemma StillWaits(s: State, w: WorkerId, step: FiberStep, c: CallId, f: FiberId)
    requires Inv(s) && CanRun(s, w, step) && WaitsIn(s, c, f)
    ensures Runs(s, w) && !Enters(s, w, step, c, f)
    ensures WaitsIn(RunStep(s, w, step), c, f) <==> !CancelsSlot(s, w, step, s.calls[c].slot)
    ensures var calls := RunStep(s, w, step).calls;
            c in calls && calls[c] == if Marks(s, w, step, c) then s.calls[c].(timedOutAt := Some(s.now)) else s.calls[c]
  {
    hide TicketInv, CallInv, CountActive, RunStep, CanRun, CancelsSlot, Registers;
    RunsInside(s, w, step);
    CallKnown(s, c);
    var k := s.calls[c].slot;
    InsideSlots(s, w, step, k, f);
    if f == Current(s, w) {
      WaiterLeaves(s, w, step, k);
      LeavesIn(s, w, f, c);
      NoRegister(s, w, step, k);
    } else {
      OthersIn(s, w, step, f);
      if Self(s, w).io == Some(c) {
        OneOwner(s, f, Current(s, w), c);
      }
    }
    OtherRecord(s, w, step, c);
  }

  lemma NoRegister(s: State, w: WorkerId, step: FiberStep, k: Slot)
    requires CanRun(s, w, step) && step == YieldHold
    ensures !Registers(s, w, step, k)
  {}

  lemma AddIn(s: State, w: WorkerId, c: CallId)
    requires CanRun(s, w, IoAdd(true)) && InCall(RunStep(s, w, IoAdd(true)).fibers, Current(s, w), c)
    ensures Self(s, w).io == Some(c)
  {}

  /** A fiber that waits after its own step either registered itself or waited already. */
  lemma SelfWaits(s: State, w: WorkerId, step: FiberStep, c: CallId)
    requires Inv(s) && CanRun(s, w, step) && Runs(s, w) && c in s.calls && WaitsIn(RunStep(s, w, step), c, Current(s, w))
    requires RunStep(s, w, step).calls[c].slot == s.calls[c].slot
    ensures step == YieldHold || Enters(s, w, step, c, Current(s, w))
  {
    hide TicketInv, CallInv, CountActive, RunStep, CanRun, InCall, CancelsSlot;
    var k := s.calls[c].slot;
    InsideSlots(s, w, step, k, Current(s, w));
    if Holds(s.slots, k, Current(s, w)) {
      WaiterLeaves(s, w, step, k);
    } else if step.WaitEvent? {
      ProgramWaits(s, w, k, c);
    } else {
      AddIn(s, w, c);
    }
  }

  lemma NotYetWaits(s: State, w: WorkerId, step: FiberStep, c: CallId, f: FiberId)
    requires Inv(s) && CanRun(s, w, step) && Runs(s, w) && c in s.calls && !Enters(s, w, step, c, f)
    requires WaitsIn(RunStep(s, w, step), c, f)
    ensures WaitsIn(s, c, f)
  {
    hide TicketInv, CallInv, CountActive, RunStep, CanRun, Holds, CancelsSlot, Registers;
    CallKnown(s, c);
    RecordMoves(s, w, step, c);
    var k := s.calls[c].slot;
    InsideSlots(s, w, step, k, f);
    if f == Current(s, w) {
      SelfWaits(s, w, step, c);
      LeavesIn(s, w, f, c);
      NoRegister(s, w, step, k);
    } else {
      OthersIn(s, w, step, f);
      if Self(s, w).io == Some(c) {
        OneOwner(s, f, Current(s, w), c);
      }
    }
    OtherRecord(s, w, step, c);
  }

  // ----- the exact condition -----

  lemma LambdaSlot(s: State, w: WorkerId)
    requires CallInv(s) && RunsBody(s, w) && Self(s, w).body.value.Timeout? && Self(s, w).body.value.call in s.calls
    ensures Self(s, w).body.value.slot == s.calls[Self(s, w).body.value.call].slot
  {
    hide Owners, BodiesRun, Records, CallTimers, QueueRipe, HandsRipe, SlotsPlain, Finished;
  }

  lemma AddKeepsMark(s: State, w: WorkerId)
    requires CanRun(s, w, IoAdd(true))
    ensures var c, calls := Self(s, w).io.value, RunStep(s, w, IoAdd(true)).calls;
            c in calls && calls[c].timedOutAt == s.calls[c].timedOutAt
  {}

  lemma LossInside(s: State, w: WorkerId, step: FiberStep, c: CallId, f: FiberId)
    requires Inv(s) && CanRun(s, w, step) && !Lost(s, c, f)
    ensures Lost(RunStep(s, w, step), c, f) <==> Loses(s, InFiber(w, step), c, f)
  {
    hide TicketInv, CallInv, CountActive, RunStep, InCall, Holds;
    RunsInside(s, w, step);
    if c !in s.calls {
      if c in RunStep(s, w, step).calls {
        NewRecord(s, w, step, c);
      }
    } else {
      InsideWaits(s, w, step, c, f);
      if WaitsIn(s, c, f) {
        StillWaits(s, w, step, c, f);
        if Marks(s, w, step, c) {
          LambdaSlot(s, w);
        }
      } else if Enters(s, w, step, c, f) {
        AddKeepsMark(s, w);
      }
    }
  }

  /** Main result: a timeout is lost by exactly two steps. The call's own addEvent loses it when the
      lambda ran between addConditionTimer and addEvent; the lambda itself loses it when epoll_ctl
      refuses to give the slot up. */
  lemma LossExactly(s: State, step: Step, c: CallId, f: FiberId)
    requires Reachable(s) && Enabled(s, step) && !Lost(s, c, f)
    ensures Lost(Next(s, step), c, f) <==> Loses(s, step, c, f)
  {
    hide Reachable, Inv, CanWork, WorkStep, CanRun, RunStep, CanAct, ActStep, WaitsIn, Frees;
    ReachableInv(s);
    if step.InFiber? {
      LossInside(s, step.w, step.act, c, f);
    } else {
      OutsideWaits(s, step, c, f);
      WaiterKnown(s, c, f);
      WaiterKnown(Next(s, step), c, f);
    }
  }

  lemma WaiterKnown(s: State, c: CallId, f: FiberId)
    ensures WaitsIn(s, c, f) ==> c in s.calls
  {}

  // ----- a lost timeout stays lost -----

  lemma LostStep(s: State, step: Step, c: CallId, f: FiberId)
    requires Inv(s) && Enabled(s, step) && Lost(s, c, f)
    ensures Lost(Next(s, step), c, f) <==> !Frees(s, step, s.calls[c].slot)
    ensures Lost(Next(s, step), c, f) ==> Next(s, step).calls[c] == s.calls[c]
  {
    hide Inv, CanWork, WorkStep, CanRun, RunStep, CanAct, ActStep, CancelsSlot, InCall, Holds;
    if step.InFiber? {
      StillWaits(s, step.w, step.act, c, f);
    } else {
      OutsideWaits(s, step, c, f);
    }
  }

  /** Some step of the run empties slot `k`. */
  ghost predicate Freed(s: State, run: seq<Step>, k: Slot)
    requires Legal(s, run)
    decreases |run|
  {
    run != [] && (Frees(s, run[0], k) || Freed(Next(s, run[0]), run[1..], k))
  }

  /** The call was freed, or has returned. */
  predicate Released(s: State, c: CallId, f: FiberId) {
    !Lost(s, c, f) && c < s.nextCall && (c in s.calls ==> Sleeps.Stamped(s, c))
  }

  lemma ReleasedStep(s: State, step: Step, c: CallId, f: FiberId)
    requires Inv(s) && Reachable(s) && Enabled(s, step) && Released(s, c, f)
    ensures Released(Next(s, step), c, f)
  {
    hide Reachable, Inv, CanWork, WorkStep, CanAct, ActStep, RunStep, WaitsIn;
    LossExactly(s, step, c, f);
    NoMoreCalls(s, step, c);
    if c in s.calls {
      Sleeps.StampedStep(s, step, c);
      NextKeeps(s, step);
      if c in Next(s, step).calls && !Sleeps.Stamped(Next(s, step), c) {
        FinishedGone(s, Next(s, step), c);
      }
    }
  }

  lemma FinishedGone(s: State, t: State, c: CallId)
    requires Inv(t) && c in s.calls && Sleeps.TimesOut(s, t.finished, c)
    ensures c !in t.calls
  {
    hide TicketInv, CountActive, Owners, BodiesRun, Records, CallTimers, QueueRipe, HandsRipe, BodiesRipe, SlotsPlain;
  }

  /** Calls are numbered upwards. */
  lemma NoMoreCalls(s: State, step: Step, c: CallId)
    requires Enabled(s, step) && c < s.nextCall
    ensures c < Next(s, step).nextCall && (c in Next(s, step).calls ==> c in s.calls)
  {
    hide CanWork, WorkStep, CanRun, RunStep, CanAct, ActStep;
    match step
    case InFiber(w, act) => InsideNumbers(s, w, act, c);
    case OnWorker(w, work) => SameRecords(s, step); WorkNumbers(s, w, work);
    case Program(_, action) => SameRecords(s, step); ActNumbers(s, action);
    case Tick(_) =>
  }

  lemma InsideNumbers(s: State, w: WorkerId, step: FiberStep, c: CallId)
    requires CanRun(s, w, step) && c < s.nextCall
    ensures c < RunStep(s, w, step).nextCall && (c in RunStep(s, w, step).calls ==> c in s.calls)
  {
    hide Trigger;
    if step.RunTimeout? {
      var c, k := Self(s, w).body.value.call, Self(s, w).body.value.slot;
      if c in s.calls {
        TriggerFrame(ClearBody(s, w).(calls := s.calls[c := s.calls[c].(timedOutAt := Some(s.now))]), k);
      }
    }
  }

  lemma WorkNumbers(s: State, w: WorkerId, step: WorkerStep)
    requires CanWork(s, w, step)
    ensures WorkStep(s, w, step).nextCall == s.nextCall
  {
    hide ExpiryOrder, Stopping, RemoveAt, FirstEligible, ExecIds, Settled, DispatchStep;
    if step.Dispatch? {
      DispatchNumbers(s, w, step.spare);
    }
  }

  lemma DispatchNumbers(s: State, w: WorkerId, spare: FiberId)
    requires CanDispatch(s, w, spare)
    ensures DispatchStep(s, w, spare).nextCall == s.nextCall
  {}

  lemma ActNumbers(s: State, action: Action)
    requires CanAct(s, action)
    ensures ActStep(s, action).nextCall == s.nextCall
  {
    hide NoTicket, NotOnCpu, NotCbFiber;
  }

  /** Main result: over any run from a reachable state, a call whose timeout was lost is still waiting
      exactly when no step of the run emptied its slot; time and timers do not help. */
  lemma {:induction false} LostForGood(s: State, run: seq<Step>, c: CallId, f: FiberId)
    requires Reachable(s) && Legal(s, run) && Lost(s, c, f)
    ensures Lost(After(s, run), c, f) <==> !Freed(s, run, s.calls[c].slot)
    decreases |run|
  {
    hide Reachable, Inv, Enabled, Next, Frees, Lost, Released;
    if run != [] {
      LostKnown(s, c, f);
      ReachableInv(s);
      LostStep(s, run[0], c, f);
      ReachableNext(s, run[0]);
      if Lost(Next(s, run[0]), c, f) {
        LostForGood(Next(s, run[0]), run[1..], c, f);
      } else {
        FirstReleased(s, run[0], c, f);
        ReleasedOverRun(Next(s, run[0]), run[1..], c, f);
      }
    }
  }

  lemma LostKnown(s: State, c: CallId, f: FiberId)
    requires Lost(s, c, f)
    ensures c in s.calls && Sleeps.Stamped(s, c)
  {}

  lemma FirstReleased(s: State, step: Step, c: CallId, f: FiberId)
    requires Inv(s) && Enabled(s, step) && Lost(s, c, f) && !Lost(Next(s, step), c, f)
    ensures Released(Next(s, step), c, f)
  {
    hide Inv, CanWork, WorkStep, CanRun, RunStep, CanAct, ActStep;
    CallKnown(s, c);
    NoMoreCalls(s, step, c);
    Sleeps.StampedStep(s, step, c);
    NextKeeps(s, step);
    if c in Next(s, step).calls && !Sleeps.Stamped(Next(s, step), c) {
      FinishedGone(s, Next(s, step), c);
    }
  }

  lemma {:induction false} ReleasedOverRun(s: State, run: seq<Step>, c: CallId, f: FiberId)
    requires Reachable(s) && Legal(s, run) && Released(s, c, f)
    ensures !Lost(After(s, run), c, f)
    decreases |run|
  {
    hide Reachable, Inv, Enabled, Next, Lost;
    if run != [] {
      ReachableInv(s);
      ReleasedStep(s, run[0], c, f);
      ReachableNext(s, run[0]);
      ReleasedOverRun(Next(s, run[0]), run[1..], c, f);
    }
  }

  // ----- the input -----

  /** Two workers, fiber 0 in its call 0 with a timeout of 5 ms, and the callback fiber 1. */
  function Scene(now: nat, pc0: Pc, w1: Worker, fibers: map<FiberId, Fiber>, queue: seq<Task>, active: int, slots: map<Slot, Work>,
                 timers: map<nat, TimerEntry>, call: IoCall): State
  {
    State(now, [Worker(pc0, None, false), w1], fibers, queue, active, slots, timers, 1, map[0 := call], 1, [], false)
  }

  /** The call after its timer was set, with the given mark. */
  function Called(k: Slot, timedOutAt: Option<nat>, stage: IoStage): IoCall {
    IoCall(k, Some(5), 0, Some(0), timedOutAt, stage)
  }

  const Caller := Fiber(Exec, false, None, Some(0))

  function TimerIsSet(k: Slot): State {
    Scene(0, Running(0, false), Worker(Scanning, None, false), map[0 := Caller], [], 1, map[],
          map[0 := TimerEntry(5, 5, false, Timeout(0, k))], Called(k, None, TimerSet))
  }

  function LambdaQueued(k: Slot): State {
    Scene(5, Running(0, false), Worker(Scanning, None, false), map[0 := Caller], [Task(CallWork(Timeout(0, k)), None)], 1, map[], map[],
          Called(k, None, TimerSet))
  }

  function LambdaRuns(k: Slot): State {
    Scene(5, Running(0, false), Worker(Running(1, true), Some(1), false),
          map[0 := Caller, 1 := Fiber(Exec, false, Some(Timeout(0, k)), None)], [], 2, map[], map[], Called(k, None, TimerSet))
  }

  /** The fiber is registered and bound to switch out; its timeout was noticed at 5 ms. */
  function LostScene(k: Slot): State {
    Scene(5, Running(0, false), Worker(Running(1, true), Some(1), false),
          map[0 := Caller.(armed := true), 1 := Fiber(Exec, false, None, None)], [], 2,
          map[k := FiberWork(0)], map[], Called(k, Some(5), Parked))
  }

  lemma SetTimer(k: Slot)
    ensures Reachable(TimerIsSet(k))
  {
    hide Reachable;
    FirstFiberRuns();
    var s := FirstFiber();
    var s1 := s.(fibers := map[0 := Caller], calls := map[0 := IoCall(k, Some(5), 0, None, None, Trying)], nextCall := 1);
    Takes(s, InFiber(0, IoBegin(k, Some(5))), s1);
    Takes(s1, InFiber(0, IoTimer), TimerIsSet(k));
  }

  /** The other worker lets the timer expire. */
  lemma Expires(k: Slot)
    ensures Reachable(LambdaQueued(k))
  {
    hide Reachable;
    SetTimer(k);
    var s := TimerIsSet(k);
    var s1 := s.(workers := [s.workers[0], Worker(Idling, None, false)]);
    var s2 := s1.(now := 5);
    var s3 := s2.(queue := [Task(CallWork(Timeout(0, k)), None)], timers := map[]);
    Takes(s, OnWorker(1, Scan), s1);
    Takes(s1, Tick(5), s2);
    Takes(s2, OnWorker(1, IdleExpire([0])), s3);
    Takes(s3, OnWorker(1, IdleYield), LambdaQueued(k));
  }

  lemma StartsLambda(k: Slot)
    ensures Reachable(LambdaRuns(k))
  {
    hide Reachable;
    Expires(k);
    var s := LambdaQueued(k);
    var s1 := s.(workers := [s.workers[0], Worker(Holding(s.queue[0]), None, false)], queue := [], active := 2);
    assert FirstEligible(s.queue, 1, ExecIds(s)) == 0;
    Takes(s, OnWorker(1, Scan), s1);
    Takes(s1, OnWorker(1, Dispatch(1)), LambdaRuns(k));
  }

  /** The input: a timer of 5 ms expires on another worker before the fiber reaches addEvent. The fiber
      then waits in its slot with its timeout noticed, and neither a timer nor a queue entry is left. */
  lemma LossHappens(k: Slot)
    ensures Reachable(LostScene(k)) && Lost(LostScene(k), 0, 0)
    ensures forall at :: !CbAt(LostScene(k), Timeout(0, k), at)
  {
    hide Reachable;
    StartsLambda(k);
    var s := LambdaRuns(k);
    var s1 := s.(fibers := map[0 := Caller, 1 := Fiber(Exec, false, None, None)], calls := map[0 := Called(k, Some(5), TimerSet)]);
    Takes(s, InFiber(1, RunTimeout(true)), s1);
    Takes(s1, InFiber(0, IoAdd(true)), LostScene(k));
  }
}
