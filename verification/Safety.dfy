/** What holds in every reachable state of the runtime, whatever the program does. */
module Safety {
  import opened Wrappers
  import opened Tasks
  import opened Runtime
  import opened Pending
  import opened Tickets
  import opened TicketSteps
  import opened Calls

  function CountActive(ws: Workers): nat {
    if ws == [] then 0 else (if ws[0].Active() then 1 else 0) + CountActive(ws[1..])
  }

  ghost predicate Inv(s: State) {
    TicketInv(s) && CallInv(s) && s.active == CountActive(s.workers)
  }

  // ----- the counter of active workers -----

  lemma {:induction false} CountUpdate(ws: Workers, w: WorkerId, x: Worker)
    requires w < |ws|
    ensures CountActive(ws[w := x]) + (if ws[w].Active() then 1 else 0)
         == CountActive(ws) + (if x.Active() then 1 else 0)
  {
    if w == 0 {
      assert ws[w := x][1..] == ws[1..];
    } else {
      assert ws[w := x][1..] == ws[1..][w - 1 := x];
      CountUpdate(ws[1..], w - 1, x);
    }
  }

  lemma {:induction false} CountZero(ws: Workers, w: WorkerId)
    requires w < |ws| && ws[w].Active()
    ensures CountActive(ws) > 0
  {
    if w > 0 {
      CountZero(ws[1..], w - 1);
    }
  }

  lemma TriggerFrame(s: State, k: Slot)
    ensures Trigger(s, k).workers == s.workers && Trigger(s, k).active == s.active
    ensures Trigger(s, k).fibers == s.fibers && Trigger(s, k).calls == s.calls && Trigger(s, k).now == s.now
    ensures Trigger(s, k).timers == s.timers && Trigger(s, k).finished == s.finished
    ensures s.queue <= Trigger(s, k).queue
    ensures Trigger(s, k).nextTimer == s.nextTimer && Trigger(s, k).nextCall == s.nextCall
  {}

  lemma TriggerBothFrame(s: State, fd: nat, events: set<Event>)
    ensures
      var t := TriggerBoth(s, fd, events);
      && t.workers == s.workers && t.active == s.active && t.fibers == s.fibers && t.calls == s.calls
      && t.now == s.now && t.timers == s.timers && t.finished == s.finished && s.queue <= t.queue
  {
    hide Trigger;
    TriggerFrame(s, Slot(fd, Read));
    TriggerFrame(s, Slot(fd, Write));
    TriggerFrame(Trigger(s, Slot(fd, Read)), Slot(fd, Write));
  }

  /** `s'` differs from `s` in at most the place of worker `w`, and the counter follows. */
  ghost predicate Recounted(s: State, s': State, w: WorkerId) {
    && w < |s.workers| && |s'.workers| == |s.workers|
    && s'.workers == s.workers[w := s'.workers[w]]
    && s'.active + (if s.workers[w].Active() then 1 else 0) == s.active + (if s'.workers[w].Active() then 1 else 0)
  }

  lemma WorkRecounts(s: State, w: WorkerId, step: WorkerStep)
    requires CanWork(s, w, step)
    ensures Recounted(s, WorkStep(s, w, step), w)
  {
    hide TriggerBoth, ExpiryOrder, Stopping, ScanStep, DispatchStep, PostRunStep, ExpireStep;
    match step
    case IdleReady(fd, events, _) => TriggerBothFrame(s, fd, events);
    case Scan => ScanRecounts(s, w);
    case Dispatch(spare) => DispatchRecounts(s, w, spare);
    case PostRun => PostRunRecounts(s, w);
    case IdleExpire(order) => OrderKnown(s, order); ExpireRecounts(s, w, order);
    case _ =>
  }

  lemma OrderKnown(s: State, order: seq<nat>)
    requires ExpiryOrder(s, order)
    ensures forall i :: 0 <= i < |order| ==> order[i] in s.timers
  {}

  lemma ScanRecounts(s: State, w: WorkerId)
    requires w < |s.workers| && s.workers[w].pc.Scanning?
    ensures Recounted(s, ScanStep(s, w), w)
  {
    hide RemoveAt, ExecIds, FirstEligible;
  }

  lemma DispatchRecounts(s: State, w: WorkerId, spare: FiberId)
    requires CanDispatch(s, w, spare)
    ensures Recounted(s, DispatchStep(s, w, spare), w)
  {}

  lemma PostRunRecounts(s: State, w: WorkerId)
    requires CanPostRun(s, w)
    ensures Recounted(s, PostRunStep(s, w), w)
  {
    hide Settled;
  }

  lemma ExpireRecounts(s: State, w: WorkerId, order: seq<nat>)
    requires w < |s.workers| && forall i :: 0 <= i < |order| ==> order[i] in s.timers
    ensures Recounted(s, ExpireStep(s, order), w)
  {}

  lemma RunRecounts(s: State, w: WorkerId, step: FiberStep)
    requires CanRun(s, w, step)
    ensures Recounted(s, RunStep(s, w, step), w)
  {
    hide Trigger;
    if step.RunTimeout? {
      var c, k := Self(s, w).body.value.call, Self(s, w).body.value.slot;
      if c in s.calls {
        TriggerFrame(ClearBody(s, w).(calls := s.calls[c := s.calls[c].(timedOutAt := Some(s.now))]), k);
      }
    }
  }

  lemma ActRecounts(s: State, action: Action)
    requires CanAct(s, action)
    ensures ActStep(s, action).workers == s.workers && ActStep(s, action).active == s.active
  {
    hide Trigger, TriggerBoth, NoTicket, NotOnCpu, NotCbFiber;
    if action.CancelEvent? {
      TriggerFrame(s, action.slot);
    } else if action.CancelAll? {
      TriggerBothFrame(s, action.fd, {Read, Write});
    }
  }

  /** activeThreadCount_ is the number of workers that hold or run a task. */
  lemma CountNext(s: State, step: Step)
    requires Enabled(s, step) && s.active == CountActive(s.workers)
    ensures Next(s, step).active == CountActive(Next(s, step).workers)
  {
    hide CanWork, WorkStep, CanRun, RunStep, ActStep, CanAct;
    match step
    case OnWorker(w, work) => WorkRecounts(s, w, work); CountUpdate(s.workers, w, Next(s, step).workers[w]);
    case InFiber(w, act) => RunRecounts(s, w, act); CountUpdate(s.workers, w, Next(s, step).workers[w]);
    case Program(_, action) => ActRecounts(s, action);
    case Tick(_) =>
  }

  // ----- every step keeps the invariant -----

  lemma WorkTickets(s: State, w: WorkerId, step: WorkerStep)
    requires TicketInv(s) && CanWork(s, w, step)
    ensures TicketInv(WorkStep(s, w, step))
  {
    hide TicketInv, ScanStep, DispatchStep, PostRunStep, ExpireStep, TriggerBoth;
    match step
    case Scan => ScanKeeps(s, w);
    case Dispatch(spare) =>
      if HoldsFiber(s.workers[w]) {
        DispatchFiberKeeps(s, w, spare);
      } else {
        DispatchCallKeeps(s, w, spare);
      }
    case PostRun => PostRunKeeps(s, w);
    case IdleStop => RestKeeps(s, w, s.workers[w].(pc := Scanning, idleDone := true));
    case IdleExpire(order) => ExpireKeeps(s, order);
    case IdleReady(fd, events, _) => TriggerBothKeeps(s, fd, events);
    case IdleYield => RestKeeps(s, w, s.workers[w].(pc := Scanning));
  }

  lemma RestTickets(s: State, w: WorkerId, x: Worker)
    requires w < |s.workers| && HandTicket(x) == HandTicket(s.workers[w])
    ensures AllTickets(SetWorker(s, w, x)) == AllTickets(s)
  {
    hide OfQueue, OfHands, OfSlots, OfTimers, OfBodies;
    HandSet(s.workers, w, x);
  }

  lemma RestKeeps(s: State, w: WorkerId, x: Worker)
    requires TicketInv(s) && w < |s.workers| && s.workers[w].OnCpu() == None && !s.workers[w].pc.Holding?
    requires x.OnCpu() == None && !x.pc.Holding? && x.cbFiber == s.workers[w].cbFiber
    ensures TicketInv(SetWorker(s, w, x))
  {
    hide Cpu, Unique, TimersOnce, AllTickets;
    RestTickets(s, w, x);
    CpuRest(s.workers, s.fibers, AllTickets(s), w, x);
  }

  lemma IoReturnKeeps(s: State, w: WorkerId, result: IoResult)
    requires TicketInv(s) && Runs(s, w) && Self(s, w).io.Some? && Self(s, w).io.value in s.calls
    ensures TicketInv(IoReturnStep(s, w, result))
  {
    hide TicketInv;
    var c := Self(s, w).io.value;
    SelfIsExec(s, w);
    SelfKeeps(s, w, Self(s, w).(io := None));
    var s1 := SetFiber(s, Current(s, w), Self(s, w).(io := None));
    DropTimerKeeps(s1, s.calls[c].timer);
    SameInv(DropTimer(s1, s.calls[c].timer), IoReturnStep(s, w, result));
  }

  lemma IoBeginKeeps(s: State, w: WorkerId, k: Slot, timeout: Option<nat>)
    requires TicketInv(s) && Runs(s, w)
    ensures TicketInv(IoBeginStep(s, w, k, timeout))
  {
    hide TicketInv;
    SelfIsExec(s, w);
    SelfKeeps(s, w, Self(s, w).(io := Some(s.nextCall)));
    SameInv(SetFiber(s, Current(s, w), Self(s, w).(io := Some(s.nextCall))), IoBeginStep(s, w, k, timeout));
  }

  lemma IoTimerKeeps(s: State, w: WorkerId)
    requires TicketInv(s) && RunsIo(s, w, Trying)
    ensures TicketInv(IoTimerStep(s, w))
  {
    hide TicketInv;
    var c := Self(s, w).io.value;
    var call := s.calls[c];
    if call.timeout.Some? {
      AddTimerKeeps(s, call.timeout.value, false, Timeout(c, call.slot));
      SameInv(AddTimer(s, call.timeout.value, false, Timeout(c, call.slot)), IoTimerStep(s, w));
    } else {
      SameInv(s, IoTimerStep(s, w));
    }
  }

  lemma IoAddKeeps(s: State, w: WorkerId, ok: bool)
    requires TicketInv(s) && RunsIo(s, w, TimerSet) && s.calls[Self(s, w).io.value].slot !in s.slots
    ensures TicketInv(IoAddStep(s, w, ok))
  {
    hide TicketInv, IoReturnStep, Wakeable;
    if ok {
      var k, f := s.calls[Self(s, w).io.value].slot, Current(s, w);
      ArmKeeps(s, w);
      SlotFiberKeeps(Arm(s, w), k, f);
      SameInv(Arm(s, w).(slots := s.slots[k := FiberWork(f)]), IoAddStep(s, w, ok));
    } else {
      IoReturnKeeps(s, w, AddFailed);
    }
  }

  lemma IoWakeKeeps(s: State, w: WorkerId)
    requires TicketInv(s) && RunsIo(s, w, Parked)
    ensures TicketInv(IoWakeStep(s, w))
  {
    hide TicketInv, IoReturnStep;
    var c := Self(s, w).io.value;
    if s.calls[c].timedOutAt.Some? {
      IoReturnKeeps(s, w, TimedOut);
    } else {
      DropTimerKeeps(s, s.calls[c].timer);
      SameInv(DropTimer(s, s.calls[c].timer), IoWakeStep(s, w));
    }
  }

  lemma RunTickets(s: State, w: WorkerId, step: FiberStep)
    requires TicketInv(s) && CanRun(s, w, step)
    ensures TicketInv(RunStep(s, w, step))
  {
    hide TicketInv, Wakeable, Arm, AddTimer, Push, Leave, RunResumeStep, RunTimeoutStep,
      IoBeginStep, IoReturnStep, IoTimerStep, IoAddStep, IoWakeStep;
    if Runs(s, w) {
      SelfIsExec(s, w);
    }
    match step
    case WaitEvent(k, ok) => if ok { ArmKeeps(s, w); ArmSlots(s, w); SlotFiberKeeps(Arm(s, w), k, Current(s, w)); }
    case Sleep(ms) => ArmKeeps(s, w); SleepKeeps(Arm(s, w), ms, Current(s, w));
    case SwitchTo(thread) => ArmKeeps(s, w); PushFiberKeeps(Arm(s, w), Current(s, w), thread);
    case YieldReady => LeaveKeeps(s, w, Ready);
    case YieldHold => LeaveKeeps(s, w, Exec);
    case Finish(threw) => LeaveKeeps(s, w, if threw then Except else Term);
    case RunResume => RunResumeKeeps(s, w);
    case RunTimeout(ok) => RunTimeoutKeeps(s, w, ok);
    case IoBegin(k, timeout) => IoBeginKeeps(s, w, k, timeout);
    case IoDone => IoStepKeeps(s, w, step);
    case IoTimer => IoStepKeeps(s, w, step);
    case IoAdd(ok) => IoStepKeeps(s, w, step);
    case IoWake => IoStepKeeps(s, w, step);
  }

  lemma IoStepKeeps(s: State, w: WorkerId, step: FiberStep)
    requires TicketInv(s) && CanRun(s, w, step) && (step.IoDone? || step.IoTimer? || step.IoAdd? || step.IoWake?)
    ensures TicketInv(RunStep(s, w, step))
  {
    hide TicketInv, IoReturnStep, IoTimerStep, IoAddStep, IoWakeStep;
    match step
    case IoDone => IoReturnKeeps(s, w, Completed);
    case IoTimer => IoTimerKeeps(s, w);
    case IoAdd(ok) => IoAddKeeps(s, w, ok);
    case IoWake => IoWakeKeeps(s, w);
  }

  lemma ArmSlots(s: State, w: WorkerId)
    requires Runs(s, w)
    ensures Arm(s, w).slots == s.slots
  {}

  lemma CbFiberIdle(s: State, w: WorkerId, spare: FiberId)
    requires TicketInv(s) && CanDispatch(s, w, spare) && s.workers[w].pc.task.work.CallWork?
    ensures
      var g := DispatchStep(s, w, spare).workers[w].pc.fiber;
      && (forall w' :: 0 <= w' < |s.workers| ==> s.workers[w'].OnCpu() != Some(g))
      && (s.workers[w].cbFiber.Some? ==> g in s.fibers && s.fibers[g] == Fiber(Init, false, None, None))
  {
    hide AllTickets, Unique, TimersOnce;
  }

  lemma WorkCalls(s: State, w: WorkerId, step: WorkerStep)
    requires TicketInv(s) && CallInv(s) && CanWork(s, w, step)
    ensures CallInv(WorkStep(s, w, step))
  {
    hide TicketInv, CallInv, ScanStep, DispatchStep, PostRunStep, ExpireStep, TriggerBoth;
    match step
    case Scan => ScanCalls(s, w);
    case Dispatch(spare) =>
      if s.workers[w].pc.task.work.FiberWork? {
        DispatchFiberCalls(s, w, spare);
      } else {
        CbFiberIdle(s, w, spare);
        DispatchCallCalls(s, w, spare);
      }
    case PostRun => PostRunCalls(s, w);
    case IdleStop => RestCalls(s, w, s.workers[w].(pc := Scanning, idleDone := true));
    case IdleExpire(order) => ExpireCalls(s, order);
    case IdleReady(fd, events, _) => TriggerBothCalls(s, fd, events);
    case IdleYield => RestCalls(s, w, s.workers[w].(pc := Scanning));
  }

  lemma RestCalls(s: State, w: WorkerId, x: Worker)
    requires CallInv(s) && w < |s.workers| && x.pc == Scanning
    ensures CallInv(SetWorker(s, w, x))
  {
    hide Owners, BodiesRun, Records, CallTimers, QueueRipe, HandsRipe, BodiesRipe, SlotsPlain, Finished;
    MoveWorker(s.workers, s.fibers, s.calls, s.nextCall, s.now, w, x);
  }

  lemma RunCalls(s: State, w: WorkerId, step: FiberStep)
    requires TicketInv(s) && CallInv(s) && CanRun(s, w, step)
    ensures CallInv(RunStep(s, w, step))
  {
    hide TicketInv, CallInv, AddTimer, Push, Leave, RunResumeStep, RunTimeoutStep,
      IoBeginStep, IoReturnStep, IoTimerStep, IoAddStep, IoWakeStep;
    match step
    case WaitEvent(k, ok) =>
      if ok { ArmCalls(s, w); ArmSlots(s, w); SlotPutCalls(Arm(s, w), k, FiberWork(Current(s, w))); }
    case Sleep(ms) => ArmCalls(s, w); AddTimerCalls(Arm(s, w), ms, false, Resume(Current(s, w)));
    case SwitchTo(thread) => ArmCalls(s, w); PushCalls(Arm(s, w), FiberWork(Current(s, w)), thread);
    case YieldReady => LeaveCalls(s, w, Ready);
    case YieldHold => LeaveCalls(s, w, Self(s, w).state);
    case Finish(threw) => LeaveCalls(s, w, if threw then Except else Term);
    case RunResume => RunResumeCalls(s, w);
    case RunTimeout(ok) => RunTimeoutCalls(s, w, ok);
    case IoBegin(k, timeout) => IoBeginCalls(s, w, k, timeout);
    case IoDone => IoReturnCalls(s, w, Completed);
    case IoTimer => IoTimerCalls(s, w);
    case IoAdd(ok) => IoAddCalls(s, w, ok);
    case IoWake => IoWakeCalls(s, w);
  }

  lemma ArmCalls(s: State, w: WorkerId)
    requires CallInv(s) && RunsProgram(s, w)
    ensures CallInv(Arm(s, w))
  {
    hide CallInv;
    SelfCalls(s, w, Self(s, w).(armed := true));
  }

  /** The invariant survives every step of every worker, fiber and outside thread. */
  lemma NextKeeps(s: State, step: Step)
    requires Inv(s) && Enabled(s, step)
    ensures Inv(Next(s, step))
  {
    hide TicketInv, CallInv, CountActive, CanWork, WorkStep, CanRun, RunStep, CanAct, ActStep;
    CountNext(s, step);
    match step
    case Tick(d) => SameInv(s, s.(now := s.now + d)); TickCalls(s, d);
    case OnWorker(w, work) => WorkTickets(s, w, work); WorkCalls(s, w, work);
    case InFiber(w, act) => RunTickets(s, w, act); RunCalls(s, w, act);
    case Program(_, action) => ActKeeps(s, action); ActCalls(s, action);
  }

  lemma {:induction false} StartActive(n: nat)
    ensures CountActive(seq(n, _ => Worker(Scanning, None, false))) == 0
  {
    var ws := seq(n, _ => Worker(Scanning, None, false));
    if n > 0 {
      StartActive(n - 1);
      assert ws[1..] == seq(n - 1, _ => Worker(Scanning, None, false));
    }
  }

  lemma {:induction false} NoHands(q: seq<Option<FiberId>>)
    requires forall i :: 0 <= i < |q| ==> q[i] == None
    ensures OfSeq(q) == multiset{}
  {
    if q != [] {
      NoHands(q[1..]);
    }
  }

  lemma StartTickets(n: nat, now: nat)
    ensures AllTickets(Start(n, now)) == multiset{}
  {
    var s := Start(n, now);
    NoHands(HandView(s.workers));
    assert QueueView(s.queue) == [] && SlotView(s.slots) == map[] && TimerView(s.timers) == map[] && BodyView(s.fibers) == map[];
  }

  lemma StartInv(n: nat, now: nat)
    ensures Inv(Start(n, now))
  {
    hide AllTickets;
    StartActive(n);
    StartTickets(n, now);
  }

  lemma {:induction false} RunKeeps(s: State, run: seq<Step>)
    requires Inv(s) && Legal(s, run)
    ensures Inv(After(s, run))
    decreases |run|
  {
    if run != [] {
      NextKeeps(s, run[0]);
      RunKeeps(Next(s, run[0]), run[1..]);
    }
  }

  /** A state that some run of `n` workers reaches. */
  ghost predicate Reachable(s: State) {
    exists n: nat, now: nat, run: seq<Step> :: Legal(Start(n, now), run) && After(Start(n, now), run) == s
  }

  lemma ReachableInv(s: State)
    requires Reachable(s)
    ensures Inv(s)
  {
    hide Inv, Legal, After;
    var n: nat, now: nat, run: seq<Step> :| Legal(Start(n, now), run) && After(Start(n, now), run) == s;
    StartInv(n, now);
    RunKeeps(Start(n, now), run);
  }

  lemma {:induction false} AfterMore(s: State, run: seq<Step>, step: Step)
    requires Legal(s, run) && Enabled(After(s, run), step)
    ensures Legal(s, run + [step]) && After(s, run + [step]) == Next(After(s, run), step)
    decreases |run|
  {
    hide Enabled, Next;
    if run == [] {
      assert ([] + [step])[1..] == [];
    } else {
      assert (run + [step])[1..] == run[1..] + [step];
      AfterMore(Next(s, run[0]), run[1..], step);
    }
  }

  lemma ReachableNext(s: State, step: Step)
    requires Reachable(s) && Enabled(s, step)
    ensures Reachable(Next(s, step))
  {
    hide Legal, After, Enabled, Next;
    var n: nat, now: nat, run: seq<Step> :| Legal(Start(n, now), run) && After(Start(n, now), run) == s;
    AfterMore(Start(n, now), run, step);
  }

  lemma StartReachable(n: nat, now: nat)
    ensures Reachable(Start(n, now))
  {
    assert Legal(Start(n, now), []) && After(Start(n, now), []) == Start(n, now);
  }

  lemma Takes(s: State, step: Step, t: State)
    requires Reachable(s) && Enabled(s, step) && Next(s, step) == t
    ensures Reachable(t)
  {
    hide Reachable, Enabled, Next;
    ReachableNext(s, step);
  }
}
