/** No wake-up is lost: only delEvent may drop one, every other step keeps it or acts on it. */
module Wakeups {
  import opened Wrappers
  import opened Tasks
  import opened Runtime
  import opened Pending
  import opened Tickets
  import opened TicketSteps
  import opened Calls
  import opened Safety
  import Guarantees

  ghost predicate Kept(s: State, s': State) {
    AllTickets(s) <= AllTickets(s')
  }

  /** The step acts on the wake-up of `f` that its worker holds. */
  predicate ActsOn(s: State, step: Step, f: FiberId) {
    && step.OnWorker? && step.work.Dispatch? && step.w < |s.workers|
    && HoldsFiber(s.workers[step.w]) && s.workers[step.w].pc.task.work.fiber == f
  }

  lemma ReturnedPlain(s: State, w: WorkerId)
    requires CallInv(s) && CanPostRun(s, w)
    ensures BodyTicket(s.fibers[s.workers[w].pc.fiber]) == None
  {
    hide Owners, Records, CallTimers, QueueRipe, HandsRipe, BodiesRipe, SlotsPlain, Finished;
  }

  lemma PostRunKept(s: State, w: WorkerId)
    requires CallInv(s) && CanPostRun(s, w)
    ensures Kept(s, PostRunStep(s, w))
  {
    hide AllTickets, Settle, CallInv;
    ReturnedPlain(s, w);
    SettleTickets(s, w);
    PushTickets(Settle(s, w), FiberWork(s.workers[w].pc.fiber), None);
  }

  lemma TriggerBothKept(s: State, fd: nat, events: set<Event>)
    ensures Kept(s, TriggerBoth(s, fd, events))
  {
    hide AllTickets, Trigger;
    TriggerTickets(s, Slot(fd, Read));
    TriggerTickets(s, Slot(fd, Write));
    TriggerTickets(Trigger(s, Slot(fd, Read)), Slot(fd, Write));
  }

  lemma WorkKept(s: State, w: WorkerId, step: WorkerStep)
    requires TicketInv(s) && CallInv(s) && CanWork(s, w, step) && !(step.Dispatch? && HoldsFiber(s.workers[w]))
    ensures Kept(s, WorkStep(s, w, step))
  {
    hide AllTickets, TicketInv, CallInv, ScanStep, DispatchStep, PostRunStep, ExpireStep, TriggerBoth;
    match step
    case Scan => ScanTickets(s, w);
    case Dispatch(spare) => DispatchCallKeeps(s, w, spare);
    case PostRun => PostRunKept(s, w);
    case IdleStop => RestTickets(s, w, s.workers[w].(pc := Scanning, idleDone := true));
    case IdleExpire(order) => ExpireKeeps(s, order);
    case IdleReady(fd, events, _) => TriggerBothKept(s, fd, events);
    case IdleYield => RestTickets(s, w, s.workers[w].(pc := Scanning));
  }

  lemma TimerDropTickets(s: State, id: Option<nat>)
    requires id.Some? && id.value in s.timers ==> !s.timers[id.value].cb.Resume?
    ensures AllTickets(DropTimer(s, id)) == AllTickets(s)
  {
    hide OfQueue, OfHands, OfSlots, OfTimers, OfBodies;
    if id.Some? {
      TimerDrop(s.timers, id.value);
    }
  }

  /** The timer that a blocking call cancels is its own. */
  lemma OwnTimer(s: State, c: CallId)
    requires CallInv(s) && c in s.calls && s.calls[c].timer.Some? && s.calls[c].timer.value in s.timers
    ensures s.timers[s.calls[c].timer.value].cb.Timeout?
  {}

  lemma IoReturnKept(s: State, w: WorkerId, result: IoResult)
    requires CallInv(s) && Runs(s, w) && Self(s, w).io.Some? && Self(s, w).io.value in s.calls
    ensures Kept(s, IoReturnStep(s, w, result))
  {
    hide AllTickets, CallInv;
    var c := Self(s, w).io.value;
    var s1 := SetFiber(s, Current(s, w), Self(s, w).(io := None));
    SetFiberTickets(s, Current(s, w), Self(s, w).(io := None));
    if s.calls[c].timer.Some? && s.calls[c].timer.value in s.timers {
      OwnTimer(s, c);
    }
    TimerDropTickets(s1, s.calls[c].timer);
    SameTickets(DropTimer(s1, s.calls[c].timer), IoReturnStep(s, w, result));
  }

  lemma IoTimerKept(s: State, w: WorkerId)
    requires TicketInv(s) && RunsIo(s, w, Trying)
    ensures Kept(s, IoTimerStep(s, w))
  {
    hide AllTickets, Cpu, Unique;
    var c := Self(s, w).io.value;
    var call := s.calls[c];
    if call.timeout.Some? {
      var s1 := AddTimer(s, call.timeout.value, false, Timeout(c, call.slot));
      AddTimerTickets(s, call.timeout.value, false, Timeout(c, call.slot));
      SameTickets(s1, IoTimerStep(s, w));
    } else {
      SameTickets(s, IoTimerStep(s, w));
    }
  }

  lemma ArmTickets(s: State, w: WorkerId)
    requires Runs(s, w)
    ensures AllTickets(Arm(s, w)) == AllTickets(s)
  {
    hide AllTickets;
    SetFiberTickets(s, Current(s, w), Self(s, w).(armed := true));
  }

  lemma IoAddKept(s: State, w: WorkerId, ok: bool)
    requires CallInv(s) && RunsIo(s, w, TimerSet) && s.calls[Self(s, w).io.value].slot !in s.slots
    ensures Kept(s, IoAddStep(s, w, ok))
  {
    hide AllTickets, CallInv, IoReturnStep;
    if ok {
      var k, f, s1 := s.calls[Self(s, w).io.value].slot, Current(s, w), Arm(s, w);
      ArmTickets(s, w);
      SlotPutTickets(s1, k, FiberWork(f));
      SameTickets(s1.(slots := s.slots[k := FiberWork(f)]), IoAddStep(s, w, ok));
    } else {
      IoReturnKept(s, w, AddFailed);
    }
  }

  lemma IoWakeKept(s: State, w: WorkerId)
    requires CallInv(s) && RunsIo(s, w, Parked)
    ensures Kept(s, IoWakeStep(s, w))
  {
    hide AllTickets, CallInv, IoReturnStep;
    var c := Self(s, w).io.value;
    if s.calls[c].timedOutAt.Some? {
      IoReturnKept(s, w, TimedOut);
    } else {
      if s.calls[c].timer.Some? && s.calls[c].timer.value in s.timers {
        OwnTimer(s, c);
      }
      TimerDropTickets(s, s.calls[c].timer);
      SameTickets(DropTimer(s, s.calls[c].timer), IoWakeStep(s, w));
    }
  }

  lemma RunTimeoutKept(s: State, w: WorkerId, ok: bool)
    requires RunsBody(s, w) && Self(s, w).body.value.Timeout?
    ensures Kept(s, RunTimeoutStep(s, w, ok))
  {
    hide AllTickets, Trigger, ClearBody;
    var c, k, s1 := Self(s, w).body.value.call, Self(s, w).body.value.slot, ClearBody(s, w);
    ClearBodyTickets(s, w);
    if c in s.calls {
      var s2 := s1.(calls := s.calls[c := s.calls[c].(timedOutAt := Some(s.now))]);
      SameTickets(s1, s2);
      TriggerTickets(s2, k);
    }
  }

  lemma RunKept(s: State, w: WorkerId, step: FiberStep)
    requires TicketInv(s) && CallInv(s) && CanRun(s, w, step)
    ensures Kept(s, RunStep(s, w, step))
  {
    hide AllTickets, CallInv, Cpu, Unique, Arm, AddTimer, Push, Leave, ClearBody, RunTimeoutStep,
      IoBeginStep, IoReturnStep, IoTimerStep, IoAddStep, IoWakeStep;
    var f := Current(s, w);
    match step
    case WaitEvent(k, ok) =>
      if ok { ArmTickets(s, w); ArmSlots(s, w); SlotPutTickets(Arm(s, w), k, FiberWork(f)); }
    case Sleep(ms) => ArmTickets(s, w); ArmTimers(s, w); AddTimerTickets(Arm(s, w), ms, false, Resume(f));
    case SwitchTo(thread) => ArmTickets(s, w); PushTickets(Arm(s, w), FiberWork(f), thread);
    case YieldReady => LeaveTickets(s, w, Ready);
    case YieldHold => LeaveTickets(s, w, Self(s, w).state);
    case Finish(threw) => LeaveTickets(s, w, if threw then Except else Term);
    case RunResume =>
      ClearBodyTickets(s, w);
      PushTickets(ClearBody(s, w), FiberWork(Self(s, w).body.value.fiber), None);
    case RunTimeout(ok) => RunTimeoutKept(s, w, ok);
    case IoBegin(k, timeout) => IoBeginKept(s, w, k, timeout);
    case IoDone => IoReturnKept(s, w, Completed);
    case IoTimer => IoTimerKept(s, w);
    case IoAdd(ok) => IoAddKept(s, w, ok);
    case IoWake => IoWakeKept(s, w);
  }

  lemma ArmTimers(s: State, w: WorkerId)
    requires TicketInv(s) && Runs(s, w)
    ensures Arm(s, w).timers == s.timers && Arm(s, w).nextTimer == s.nextTimer && s.nextTimer !in s.timers
  {
    hide Cpu, Unique, AllTickets;
  }

  lemma IoBeginKept(s: State, w: WorkerId, k: Slot, timeout: Option<nat>)
    requires Runs(s, w)
    ensures Kept(s, IoBeginStep(s, w, k, timeout))
  {
    hide AllTickets;
    SetFiberTickets(s, Current(s, w), Self(s, w).(io := Some(s.nextCall)));
    SameTickets(SetFiber(s, Current(s, w), Self(s, w).(io := Some(s.nextCall))), IoBeginStep(s, w, k, timeout));
  }

  lemma SpawnKept(s: State, f: FiberId, thread: Option<WorkerId>)
    requires f !in s.fibers
    ensures Kept(s, ActStep(s, Spawn(f, thread)))
  {
    hide OfQueue, OfHands, OfSlots, OfTimers, OfBodies;
    BodySame(s.fibers, f, Fiber(Init, false, None, None));
    QueuePush(s.queue, Task(FiberWork(f), thread));
  }

  lemma ActKept(s: State, action: Action)
    requires TicketInv(s) && CanAct(s, action) && !action.DelEvent?
    ensures Kept(s, ActStep(s, action))
  {
    hide AllTickets, Cpu, Unique, Push, Trigger, TriggerBoth, AddTimer, DropTimer;
    match action
    case Spawn(f, thread) => SpawnKept(s, f, thread);
    case Submit(f, thread) => PushTickets(s, FiberWork(f), thread);
    case Call(tag, thread) => PushTickets(s, CallWork(User(tag)), thread);
    case OnEvent(k, tag, _) => SlotPutTickets(s, k, CallWork(User(tag)));
    case CancelEvent(k, _) => TriggerTickets(s, k);
    case CancelAll(fd, _) => TriggerBothKept(s, fd, {Read, Write});
    case StartTimer(ms, tag, recurring) => AddTimerTickets(s, ms, recurring, User(tag));
    case StopTimer(id) => TimerDropTickets(s, Some(id));
    case RequestStop => SameTickets(s, s.(stopRequested := true));
  }

  lemma WorkerWakeup(s: State, w: WorkerId, step: WorkerStep, f: FiberId)
    requires TicketInv(s) && CallInv(s) && CanWork(s, w, step) && f in AllTickets(s)
    ensures f in AllTickets(WorkStep(s, w, step)) || ActsOn(s, OnWorker(w, step), f)
  {
    hide AllTickets, TicketInv, CallInv, ScanStep, DispatchStep, PostRunStep, ExpireStep, TriggerBoth;
    if step.Dispatch? && HoldsFiber(s.workers[w]) {
      DispatchFiberTickets(s, w, step.spare);
    } else {
      WorkKept(s, w, step);
    }
  }

  /** The one step that loses a wake-up: a successful delEvent of the slot in which the fiber waits. */
  predicate Forgets(s: State, step: Step, f: FiberId) {
    && step.Program? && step.action.DelEvent? && step.action.ok
    && step.action.slot in s.slots && s.slots[step.action.slot] == FiberWork(f)
  }

  lemma DelEventKept(s: State, k: Slot, ok: bool, f: FiberId)
    requires CallInv(s) && f in AllTickets(s) && !(ok && k in s.slots && s.slots[k] == FiberWork(f))
    ensures f in AllTickets(ActStep(s, DelEvent(k, ok)))
  {
    hide OfQueue, OfHands, OfSlots, OfTimers, OfBodies, Owners, BodiesRun, Records, CallTimers, QueueRipe, HandsRipe, BodiesRipe, Finished;
    SlotDrop(s.slots, k);
    if k in s.slots {
      assert One(TicketOf(s.slots[k]))[f] == if s.slots[k] == FiberWork(f) then 1 else 0;
    }
  }

  lemma DelEventLoses(s: State, k: Slot, f: FiberId)
    requires TicketInv(s) && k in s.slots && s.slots[k] == FiberWork(f)
    ensures f !in AllTickets(ActStep(s, DelEvent(k, true)))
  {
    hide Cpu, OfQueue, OfHands, OfSlots, OfTimers, OfBodies, TimersOnce;
    SlotDrop(s.slots, k);
    assert AllTickets(s)[f] <= 1;
    assert One(TicketOf(s.slots[k]))[f] == 1;
  }

  lemma StepWakeup(s: State, step: Step, f: FiberId)
    requires Inv(s) && Enabled(s, step) && f in AllTickets(s)
    ensures (f in AllTickets(Next(s, step)) || ActsOn(s, step, f)) <==> !Forgets(s, step, f)
  {
    hide AllTickets, TicketInv, CallInv, CountActive, CanWork, WorkStep, CanRun, RunStep, CanAct, ActStep;
    if Forgets(s, step, f) {
      DelEventLoses(s, step.action.slot, f);
    } else {
      match step
      case Tick(d) => SameTickets(s, s.(now := s.now + d));
      case OnWorker(w, work) => WorkerWakeup(s, w, work, f);
      case InFiber(w, act) => RunKept(s, w, act);
      case Program(_, action) => if action.DelEvent? { DelEventKept(s, action.slot, action.ok, f); } else { ActKept(s, action); }
    }
  }

  /** A pending wake-up survives a step, or the step acts on it, if and only if the step is not a
      successful delEvent of the slot in which the fiber waits. */
  lemma NoLostWakeup(s: State, step: Step, f: FiberId)
    requires Reachable(s) && Enabled(s, step) && f in AllTickets(s)
    ensures (f in AllTickets(Next(s, step)) || ActsOn(s, step, f)) <==> !Forgets(s, step, f)
  {
    hide Reachable, Inv, AllTickets, Enabled, Next, ActsOn, Forgets;
    ReachableInv(s);
    StepWakeup(s, step, f);
  }

  /** The exception: delEvent forgets the fiber that waits in the slot. */
  lemma DelEventForgets(s: State, k: Slot, f: FiberId)
    requires Reachable(s) && k in s.slots && s.slots[k] == FiberWork(f)
    ensures f !in AllTickets(ActStep(s, DelEvent(k, true)))
  {
    hide Reachable, TicketInv, CallInv, AllTickets;
    ReachableInv(s);
    DelEventLoses(s, k, f);
  }

  /** Fiber 0 runs on the first of two workers. */
  function FirstFiber(): State {
    State(0, [Worker(Running(0, false), None, false), Worker(Scanning, None, false)],
          map[0 := Fiber(Exec, false, None, None)], [], 1, map[], map[], 0, map[], 0, [], false)
  }

  function FirstTaken(): State {
    State(0, [Worker(Holding(Task(FiberWork(0), None)), None, false), Worker(Scanning, None, false)],
          map[0 := Fiber(Init, false, None, None)], [], 1, map[], map[], 0, map[], 0, [], false)
  }

  lemma FirstIsTaken()
    ensures Reachable(FirstTaken())
  {
    hide Reachable;
    var s := Start(2, 0);
    var s1 := s.(fibers := map[0 := Fiber(Init, false, None, None)], queue := [Task(FiberWork(0), None)]);
    assert s.workers == [Worker(Scanning, None, false), Worker(Scanning, None, false)];
    StartReachable(2, 0);
    Takes(s, Program(None, Spawn(0, None)), s1);
    assert s1.queue[0] == Task(FiberWork(0), None) && FirstEligible(s1.queue, 0, ExecIds(s1)) == 0;
    Takes(s1, OnWorker(0, Scan), FirstTaken());
  }

  lemma FirstFiberRuns()
    ensures Reachable(FirstFiber())
  {
    hide Reachable;
    FirstIsTaken();
    Takes(FirstTaken(), OnWorker(0, Dispatch(1)), FirstFiber());
  }

  /** The input: a fiber registers for an event, and another thread deletes the event. */
  lemma ForgettingHappens(k: Slot) returns (s: State)
    ensures Reachable(s) && Enabled(s, Program(None, DelEvent(k, true))) && Waiting(s, 0)
    ensures Forgets(s, Program(None, DelEvent(k, true)), 0) && !Waiting(Next(s, Program(None, DelEvent(k, true))), 0)
  {
    hide Reachable, AllTickets;
    FirstFiberRuns();
    s := FirstFiber().(fibers := map[0 := Fiber(Exec, true, None, None)], slots := map[k := FiberWork(0)]);
    Takes(FirstFiber(), InFiber(0, WaitEvent(k, true)), s);
    Guarantees.PendingSomewhere(s, 0);
    assert TicketAt(s, 0, InSlot(k));
    DelEventForgets(s, k, 0);
  }

  // ----- over runs -----

  /** The fiber has not ended and its wake-up is pending. */
  ghost predicate Waiting(s: State, f: FiberId) {
    f in AllTickets(s) && Alive(s.fibers, f)
  }

  predicate Alive(fs: Fibers, f: FiberId) {
    f in fs && !(fs[f].state in {Term, Except})
  }

  /** The step swaps the fiber in. */
  ghost predicate SwapsIn(s: State, step: Step, f: FiberId)
    requires Enabled(s, step)
  {
    && ActsOn(s, step, f)
    && Next(s, step).workers[step.w].pc == Running(f, false)
    && f in Next(s, step).fibers && Next(s, step).fibers[f].state == Exec
  }

  ghost predicate SwappedIn(s: State, run: seq<Step>, f: FiberId)
    requires Legal(s, run)
    decreases |run|
  {
    run != [] && (SwapsIn(s, run[0], f) || SwappedIn(Next(s, run[0]), run[1..], f))
  }

  ghost predicate Forgotten(s: State, run: seq<Step>, f: FiberId)
    requires Legal(s, run)
    decreases |run|
  {
    run != [] && (Forgets(s, run[0], f) || Forgotten(Next(s, run[0]), run[1..], f))
  }

  lemma WorkAlive(s: State, w: WorkerId, step: WorkerStep, f: FiberId)
    requires CanWork(s, w, step) && Alive(s.fibers, f)
    ensures Alive(WorkStep(s, w, step).fibers, f)
  {
    hide TriggerBoth, ExpiryOrder, Stopping, ExpireStep, RemoveAt, FirstEligible, ExecIds, PostRunStep, DispatchStep;
    match step
    case IdleReady(fd, events, _) => TriggerBothFrame(s, fd, events);
    case IdleExpire(order) => OrderKnown(s, order); ExpireFibers(s, order);
    case PostRun => PostRunAlive(s, w, f);
    case Dispatch(spare) => DispatchAlive(s, w, spare, f);
    case _ =>
  }

  lemma ExpireFibers(s: State, order: seq<nat>)
    requires forall i :: 0 <= i < |order| ==> order[i] in s.timers
    ensures ExpireStep(s, order).fibers == s.fibers
  {}

  lemma PostRunAlive(s: State, w: WorkerId, f: FiberId)
    requires CanPostRun(s, w) && Alive(s.fibers, f)
    ensures Alive(PostRunStep(s, w).fibers, f)
  {
    var g := s.workers[w].pc.fiber;
    assert PostRunStep(s, w).fibers == s.fibers[g := Settled(s.fibers[g], s.workers[w].pc.viaCb)];
  }

  lemma DispatchAlive(s: State, w: WorkerId, spare: FiberId, f: FiberId)
    requires CanDispatch(s, w, spare) && Alive(s.fibers, f)
    ensures Alive(DispatchStep(s, w, spare).fibers, f)
  {}

  /** Inside fibers only Finish ends one, and a fiber with a pending wake-up cannot take that step. */
  lemma InsideAlive(s: State, w: WorkerId, step: FiberStep, f: FiberId)
    requires CanRun(s, w, step) && Alive(s.fibers, f) && (step.Finish? ==> f != Current(s, w))
    ensures Alive(RunStep(s, w, step).fibers, f)
  {
    hide Trigger, IoReturnStep, IoTimerStep, IoAddStep, IoWakeStep;
    match step {
      case RunTimeout(_) =>
        var c, k := Self(s, w).body.value.call, Self(s, w).body.value.slot;
        if c in s.calls {
          TriggerFrame(ClearBody(s, w).(calls := s.calls[c := s.calls[c].(timedOutAt := Some(s.now))]), k);
        }
      case IoDone => IoAlive(s, w, step, f);
      case IoTimer => IoAlive(s, w, step, f);
      case IoAdd(_) => IoAlive(s, w, step, f);
      case IoWake => IoAlive(s, w, step, f);
      case _ =>
    }
  }

  lemma IoAlive(s: State, w: WorkerId, step: FiberStep, f: FiberId)
    requires CanRun(s, w, step) && Alive(s.fibers, f) && (step.IoDone? || step.IoTimer? || step.IoAdd? || step.IoWake?)
    ensures Alive(RunStep(s, w, step).fibers, f)
  {
    AliveWith(s.fibers, f, Current(s, w), Self(s, w).(io := None));
    AliveWith(s.fibers, f, Current(s, w), Self(s, w).(armed := true));
  }

  lemma AliveWith(fs: Fibers, f: FiberId, g: FiberId, x: Fiber)
    requires Alive(fs, f) && g in fs && x.state == fs[g].state
    ensures Alive(fs[g := x], f)
  {}

  lemma ActAlive(s: State, action: Action, f: FiberId)
    requires CanAct(s, action) && Alive(s.fibers, f)
    ensures Alive(ActStep(s, action).fibers, f)
  {
    hide Trigger, TriggerBoth, NoTicket, NotOnCpu, NotCbFiber;
    if action.CancelEvent? {
      TriggerFrame(s, action.slot);
    } else if action.CancelAll? {
      TriggerBothFrame(s, action.fd, {Read, Write});
    }
  }

  /** A running fiber whose wake-up is pending is bound to switch out. */
  lemma PendingIsArmed(s: State, w: WorkerId)
    requires TicketInv(s) && Runs(s, w) && Current(s, w) in AllTickets(s)
    ensures Self(s, w).armed
  {
    hide AllTickets, Unique, TimersOnce, CpuDistinct, HandsIdle, CbFibers, ArmedRun;
  }

  lemma StepAlive(s: State, step: Step, f: FiberId)
    requires Inv(s) && Enabled(s, step) && Waiting(s, f)
    ensures Alive(Next(s, step).fibers, f)
  {
    hide AllTickets, TicketInv, CallInv, CountActive, CanWork, WorkStep, RunStep, CanAct, ActStep;
    match step
    case Tick(_) =>
    case OnWorker(w, work) => WorkAlive(s, w, work, f);
    case InFiber(w, act) => if act.Finish? && f == Current(s, w) { PendingIsArmed(s, w); } InsideAlive(s, w, act, f);
    case Program(_, action) => ActAlive(s, action, f);
  }

  /** The fiber that a worker holds is parked, so acting on its wake-up swaps it in. */
  lemma ActingSwapsIn(s: State, step: Step, f: FiberId)
    requires Enabled(s, step) && ActsOn(s, step, f) && Alive(s.fibers, f)
    ensures SwapsIn(s, step, f)
  {}

  /** Main result: from any reachable state, over any run, a fiber that has not ended and whose wake-up
      is pending is still waiting at the end, or a step of the run swapped it in, or a delEvent of its
      own slot forgot it. */
  lemma WakeupOverRun(s: State, run: seq<Step>, f: FiberId)
    requires Reachable(s) && Legal(s, run) && Waiting(s, f)
    ensures Waiting(After(s, run), f) || SwappedIn(s, run, f) || Forgotten(s, run, f)
  {
    hide Reachable, Inv, Waiting, After, Legal, SwappedIn, Forgotten;
    ReachableInv(s);
    WakeupFrom(s, run, f);
  }

  lemma {:induction false} WakeupFrom(s: State, run: seq<Step>, f: FiberId)
    requires Inv(s) && Legal(s, run) && Waiting(s, f)
    ensures Waiting(After(s, run), f) || SwappedIn(s, run, f) || Forgotten(s, run, f)
    decreases |run|
  {
    hide Inv, Enabled, Next, AllTickets, ActsOn, Forgets, SwapsIn;
    if run != [] && !SwapsIn(s, run[0], f) && !Forgets(s, run[0], f) {
      StepWakeup(s, run[0], f);
      if ActsOn(s, run[0], f) {
        ActingSwapsIn(s, run[0], f);
      }
      NextKeeps(s, run[0]);
      StepAlive(s, run[0], f);
      WakeupFrom(Next(s, run[0]), run[1..], f);
    }
  }
}
