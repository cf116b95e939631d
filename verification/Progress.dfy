/** Nothing is forgotten: a fiber that is ready or new is always in line somewhere, and events,
    cancellations and expired timers put what waits for them into the queue. */
module Progress {
  import opened Wrappers
  import opened Tasks
  import opened Runtime
  import opened Tickets
  import opened Calls
  import opened Safety
  import Guarantees

  ghost function QueueFibers(q: seq<Task>): set<FiberId> {
    set t | t in q && t.work.FiberWork? :: t.work.fiber
  }

  ghost function WorkerFibers(x: Worker): set<FiberId> {
    (if HoldsFiber(x) then {x.pc.task.work.fiber} else {})
    + (if x.OnCpu().Some? then {x.OnCpu().value} else {})
    + (if x.cbFiber.Some? then {x.cbFiber.value} else {})
  }

  ghost function PoolFibers(ws: Workers): set<FiberId> {
    set w, f | 0 <= w < |ws| && f in WorkerFibers(ws[w]) :: f
  }

  predicate Wants(fs: Fibers, f: FiberId) {
    f in fs && fs[f].state in {Init, Ready}
  }

  /** Every new or ready fiber is queued, in a worker's hand, on a worker, or kept as its callback fiber. */
  ghost predicate InLine(q: seq<Task>, ws: Workers, fs: Fibers) {
    forall f :: Wants(fs, f) ==> f in QueueFibers(q) + PoolFibers(ws)
  }

  lemma QueueGrows(q: seq<Task>, q': seq<Task>)
    requires q <= q'
    ensures QueueFibers(q) <= QueueFibers(q')
  {}

  lemma PoolUpdate(ws: Workers, w: WorkerId, x: Worker)
    requires w < |ws|
    ensures PoolFibers(ws) <= PoolFibers(ws[w := x]) + WorkerFibers(ws[w])
    ensures WorkerFibers(x) <= PoolFibers(ws[w := x])
  {
    hide WorkerFibers;
    forall f | f in PoolFibers(ws) ensures f in PoolFibers(ws[w := x]) + WorkerFibers(ws[w]) {
      var v :| 0 <= v < |ws| && f in WorkerFibers(ws[v]);
      assert v != w ==> ws[w := x][v] == ws[v];
    }
    assert ws[w := x][w] == x;
  }

  /** The queue at most grows, the workers keep their fibers, and no fiber newly wants to run. */
  lemma LineKept(q: seq<Task>, q': seq<Task>, ws: Workers, fs: Fibers, fs': Fibers)
    requires InLine(q, ws, fs) && q <= q' && forall f :: Wants(fs', f) ==> Wants(fs, f)
    ensures InLine(q', ws, fs')
  {
    hide QueueFibers, PoolFibers;
    QueueGrows(q, q');
  }

  /** The same when one worker moves: its fibers stay with it, enter the queue or stop wanting. */
  lemma LineMoved(q: seq<Task>, q': seq<Task>, ws: Workers, w: WorkerId, x: Worker, fs: Fibers, fs': Fibers)
    requires InLine(q, ws, fs) && w < |ws|
    requires forall f :: f in QueueFibers(q) && Wants(fs', f) ==> f in QueueFibers(q') + WorkerFibers(x)
    requires forall f :: f in WorkerFibers(ws[w]) && Wants(fs', f) ==> f in QueueFibers(q') + WorkerFibers(x)
    requires forall f :: Wants(fs', f) ==> Wants(fs, f) || f in WorkerFibers(x) + QueueFibers(q')
    ensures InLine(q', ws[w := x], fs')
  {
    hide QueueFibers, PoolFibers, WorkerFibers;
    PoolUpdate(ws, w, x);
  }

  lemma ScanLine(s: State, w: WorkerId)
    requires InLine(s.queue, s.workers, s.fibers) && w < |s.workers| && s.workers[w].pc == Scanning
    ensures var t := ScanStep(s, w); InLine(t.queue, t.workers, t.fibers)
  {
    hide InLine, FirstEligible, ExecIds, QueueFibers;
    var t := ScanStep(s, w);
    var k := FirstEligible(s.queue, w, ExecIds(s));
    if k < |s.queue| {
      TakenOut(s.queue, k);
    }
    LineMoved(s.queue, t.queue, s.workers, w, t.workers[w], s.fibers, t.fibers);
    assert t.workers == s.workers[w := t.workers[w]];
  }

  lemma TakenOut(q: seq<Task>, k: nat)
    requires k < |q|
    ensures QueueFibers(q) <= QueueFibers(RemoveAt(q, k)) + if q[k].work.FiberWork? then {q[k].work.fiber} else {}
  {
    forall t | t in q && t != q[k] ensures t in RemoveAt(q, k) {
      var i :| 0 <= i < |q| && q[i] == t;
      assert RemoveAt(q, k)[if i < k then i else i - 1] == t;
    }
  }

  lemma DispatchLine(s: State, w: WorkerId, spare: FiberId)
    requires InLine(s.queue, s.workers, s.fibers) && CanDispatch(s, w, spare)
    ensures var t := DispatchStep(s, w, spare); InLine(t.queue, t.workers, t.fibers)
  {
    hide InLine, QueueFibers, DispatchStep, Wants, WorkerFibers;
    var t := DispatchStep(s, w, spare);
    if s.workers[w].pc.task.work.FiberWork? {
      DispatchFiberShape(s, w, spare);
    } else {
      DispatchCallShape(s, w, spare);
    }
    LineMoved(s.queue, t.queue, s.workers, w, t.workers[w], s.fibers, t.fibers);
  }

  /** Worker `w` alone moves, no fiber newly wants to run, and its own that still do stay with it. */
  ghost predicate KeepsLine(s: State, t: State, w: WorkerId) {
    && w < |s.workers| && w < |t.workers| && t.workers == s.workers[w := t.workers[w]] && t.queue == s.queue
    && (forall f :: Wants(t.fibers, f) ==> Wants(s.fibers, f))
    && (forall f :: f in WorkerFibers(s.workers[w]) && Wants(t.fibers, f) ==> f in WorkerFibers(t.workers[w]))
  }

  lemma DispatchFiberShape(s: State, w: WorkerId, spare: FiberId)
    requires CanDispatch(s, w, spare) && s.workers[w].pc.task.work.FiberWork?
    ensures KeepsLine(s, DispatchStep(s, w, spare), w)
  {}

  lemma DispatchCallShape(s: State, w: WorkerId, spare: FiberId)
    requires CanDispatch(s, w, spare) && s.workers[w].pc.task.work.CallWork?
    ensures KeepsLine(s, DispatchStep(s, w, spare), w)
  {}

  lemma PostRunLine(s: State, w: WorkerId)
    requires InLine(s.queue, s.workers, s.fibers) && CanPostRun(s, w)
    requires s.workers[w].pc.viaCb ==> s.workers[w].cbFiber == Some(s.workers[w].pc.fiber)
    ensures var t := PostRunStep(s, w); InLine(t.queue, t.workers, t.fibers)
  {
    hide InLine, QueueFibers, PostRunStep, Wants;
    var t, f := PostRunStep(s, w), s.workers[w].pc.fiber;
    PostRunShape(s, w);
    QueueGrows(s.queue, t.queue);
    LineMoved(s.queue, t.queue, s.workers, w, t.workers[w], s.fibers, t.fibers);
  }

  /** After the bookkeeping the fiber wants to run only if it was queued or stays as callback fiber. */
  lemma PostRunShape(s: State, w: WorkerId)
    requires CanPostRun(s, w)
    requires s.workers[w].pc.viaCb ==> s.workers[w].cbFiber == Some(s.workers[w].pc.fiber)
    ensures var t, f := PostRunStep(s, w), s.workers[w].pc.fiber;
            && t.workers == s.workers[w := t.workers[w]] && s.queue <= t.queue
            && (forall g :: g != f && Wants(t.fibers, g) ==> Wants(s.fibers, g))
            && (s.workers[w].cbFiber.Some? && s.workers[w].cbFiber != Some(f) ==> t.workers[w].cbFiber == s.workers[w].cbFiber)
            && (Wants(t.fibers, f) ==> f in QueueFibers(t.queue) || t.workers[w].cbFiber == Some(f))
  {
    hide QueueFibers;
    QueuedFiber(s.queue, s.workers[w].pc.fiber, None);
  }

  lemma QueuedFiber(q: seq<Task>, f: FiberId, thread: Option<WorkerId>)
    ensures f in QueueFibers(q + [Task(FiberWork(f), thread)])
  {
    var t := Task(FiberWork(f), thread);
    assert t in q + [t];
  }

  lemma WorkLine(s: State, w: WorkerId, step: WorkerStep)
    requires InLine(s.queue, s.workers, s.fibers) && CanWork(s, w, step)
    requires s.workers[w].pc.Returned? && s.workers[w].pc.viaCb ==> s.workers[w].cbFiber == Some(s.workers[w].pc.fiber)
    ensures var t := WorkStep(s, w, step); InLine(t.queue, t.workers, t.fibers)
  {
    hide InLine, TriggerBoth, ExpiryOrder, Stopping, ScanStep, DispatchStep, PostRunStep;
    match step
    case Scan => ScanLine(s, w);
    case Dispatch(spare) => DispatchLine(s, w, spare);
    case PostRun => PostRunLine(s, w);
    case IdleReady(fd, events, _) =>
      TriggerBothFrame(s, fd, events);
      LineKept(s.queue, WorkStep(s, w, step).queue, s.workers, s.fibers, s.fibers);
    case IdleExpire(order) => OrderKnown(s, order); LineKept(s.queue, ExpireStep(s, order).queue, s.workers, s.fibers, s.fibers);
    case IdleStop => RestLine(s, w, s.workers[w].(pc := Scanning, idleDone := true));
    case IdleYield => RestLine(s, w, s.workers[w].(pc := Scanning));
  }

  lemma RestLine(s: State, w: WorkerId, x: Worker)
    requires InLine(s.queue, s.workers, s.fibers) && w < |s.workers|
    requires WorkerFibers(s.workers[w]) <= WorkerFibers(x)
    ensures InLine(s.queue, s.workers[w := x], s.fibers)
  {
    hide InLine, QueueFibers, WorkerFibers;
    LineMoved(s.queue, s.queue, s.workers, w, x, s.fibers, s.fibers);
  }

  /** Inside a fiber only the three ways of switching out change a state, and only that fiber's. */
  lemma InsideSame(s: State, w: WorkerId, step: FiberStep)
    requires CanRun(s, w, step) && !step.YieldReady? && !step.YieldHold? && !step.Finish?
    ensures var t := RunStep(s, w, step);
            t.workers == s.workers && s.queue <= t.queue && forall f :: Wants(t.fibers, f) ==> Wants(s.fibers, f)
  {
    hide Trigger, IoReturnStep, IoTimerStep, IoAddStep, IoWakeStep, Wants;
    WantsSame(s.fibers, Current(s, w));
    match step {
      case RunTimeout(_) =>
        var c, k := Self(s, w).body.value.call, Self(s, w).body.value.slot;
        if c in s.calls {
          TriggerFrame(ClearBody(s, w).(calls := s.calls[c := s.calls[c].(timedOutAt := Some(s.now))]), k);
        }
      case IoDone => IoInside(s, w, step);
      case IoTimer => IoInside(s, w, step);
      case IoAdd(_) => IoInside(s, w, step);
      case IoWake => IoInside(s, w, step);
      case _ =>
    }
  }

  lemma WantsSame(fs: Fibers, g: FiberId)
    requires g in fs
    ensures forall x: Fiber, f :: x.state == fs[g].state && Wants(fs[g := x], f) ==> Wants(fs, f)
  {}

  lemma IoInside(s: State, w: WorkerId, step: FiberStep)
    requires CanRun(s, w, step) && (step.IoDone? || step.IoTimer? || step.IoAdd? || step.IoWake?)
    ensures var t := RunStep(s, w, step);
            t.workers == s.workers && s.queue == t.queue && forall f :: Wants(t.fibers, f) ==> Wants(s.fibers, f)
  {
    hide Wants;
    WantsSame(s.fibers, Current(s, w));
  }

  lemma LeaveLine(s: State, w: WorkerId, state: FiberState)
    requires InLine(s.queue, s.workers, s.fibers) && Runs(s, w)
    ensures var t := Leave(s, w, state); InLine(t.queue, t.workers, t.fibers)
  {
    hide InLine, QueueFibers;
    var t := Leave(s, w, state);
    LineMoved(s.queue, t.queue, s.workers, w, t.workers[w], s.fibers, t.fibers);
    assert t.workers == s.workers[w := t.workers[w]];
  }

  lemma RunLine(s: State, w: WorkerId, step: FiberStep)
    requires InLine(s.queue, s.workers, s.fibers) && CanRun(s, w, step)
    ensures var t := RunStep(s, w, step); InLine(t.queue, t.workers, t.fibers)
  {
    hide InLine, Leave, RunResumeStep, RunTimeoutStep, IoBeginStep, IoReturnStep, IoTimerStep, IoAddStep, IoWakeStep, Arm, Push, AddTimer;
    match step
    case YieldReady => LeaveLine(s, w, Ready);
    case YieldHold => LeaveLine(s, w, Self(s, w).state);
    case Finish(threw) => LeaveLine(s, w, if threw then Except else Term);
    case _ => InsideSame(s, w, step); LineKept(s.queue, RunStep(s, w, step).queue, s.workers, s.fibers, RunStep(s, w, step).fibers);
  }

  lemma ActLine(s: State, action: Action)
    requires InLine(s.queue, s.workers, s.fibers) && CanAct(s, action)
    ensures var t := ActStep(s, action); InLine(t.queue, t.workers, t.fibers)
  {
    hide InLine, Trigger, TriggerBoth, NoTicket, NotOnCpu, NotCbFiber;
    match action
    case Spawn(f, thread) => SpawnLine(s, f, thread);
    case CancelEvent(k, _) => TriggerFrame(s, k); LineKept(s.queue, ActStep(s, action).queue, s.workers, s.fibers, s.fibers);
    case CancelAll(fd, _) =>
      TriggerBothFrame(s, fd, {Read, Write});
      LineKept(s.queue, ActStep(s, action).queue, s.workers, s.fibers, s.fibers);
    case _ => LineKept(s.queue, ActStep(s, action).queue, s.workers, s.fibers, s.fibers);
  }

  lemma SpawnLine(s: State, f: FiberId, thread: Option<WorkerId>)
    requires InLine(s.queue, s.workers, s.fibers) && f !in s.fibers
    ensures InLine(s.queue + [Task(FiberWork(f), thread)], s.workers, s.fibers[f := Fiber(Init, false, None, None)])
  {
    hide PoolFibers, QueueFibers, Wants;
    var q, fs := s.queue + [Task(FiberWork(f), thread)], s.fibers[f := Fiber(Init, false, None, None)];
    QueueGrows(s.queue, q);
    QueuedFiber(s.queue, f, thread);
    forall g | Wants(fs, g) ensures g in QueueFibers(q) + PoolFibers(s.workers) {
      WantsOld(s.fibers, f, g);
    }
  }

  lemma WantsOld(fs: Fibers, f: FiberId, g: FiberId)
    requires Wants(fs[f := Fiber(Init, false, None, None)], g)
    ensures g == f || Wants(fs, g)
  {}

  lemma OwnCallback(s: State, w: WorkerId)
    requires TicketInv(s) && w < |s.workers| && InCallback(s.workers[w])
    ensures s.workers[w].cbFiber == Some(s.workers[w].pc.fiber)
  {
    hide AllTickets, Unique, TimersOnce, CpuStates, CpuDistinct, HandsIdle, ArmedRun;
  }

  lemma NextLine(s: State, step: Step)
    requires Inv(s) && InLine(s.queue, s.workers, s.fibers) && Enabled(s, step)
    ensures var t := Next(s, step); InLine(t.queue, t.workers, t.fibers)
  {
    hide InLine, TicketInv, CallInv, CanWork, WorkStep, CanRun, RunStep, CanAct, ActStep;
    match step
    case Tick(_) =>
    case OnWorker(w, work) => WorkerKnown(s, w, work); if InCallback(s.workers[w]) { OwnCallback(s, w); } WorkLine(s, w, work);
    case InFiber(w, act) => RunLine(s, w, act);
    case Program(_, action) => ActLine(s, action);
  }

  lemma WorkerKnown(s: State, w: WorkerId, step: WorkerStep)
    requires CanWork(s, w, step)
    ensures w < |s.workers|
  {}

  lemma {:induction false} RunInLine(s: State, run: seq<Step>)
    requires Inv(s) && InLine(s.queue, s.workers, s.fibers) && Legal(s, run)
    ensures var t := After(s, run); InLine(t.queue, t.workers, t.fibers)
    decreases |run|
  {
    hide Inv, InLine, Enabled, Next;
    if run != [] {
      NextKeeps(s, run[0]);
      NextLine(s, run[0]);
      RunInLine(Next(s, run[0]), run[1..]);
    }
  }

  lemma StartLine(n: nat, now: nat)
    ensures InLine(Start(n, now).queue, Start(n, now).workers, Start(n, now).fibers)
  {}

  /** A fiber that has yielded READY and is off its worker is always in the queue or in the hand of a
      worker that took it from there: yielding never loses a fiber. */
  lemma ReadyIsInLine(s: State, f: FiberId)
    requires Reachable(s) && f in s.fibers && s.fibers[f].state == Ready
    ensures || f in QueueFibers(s.queue)
            || exists w :: 0 <= w < |s.workers| &&
                 (s.workers[w].OnCpu() == Some(f) || (HoldsFiber(s.workers[w]) && s.workers[w].pc.task.work.fiber == f))
  {
    hide Inv, Legal, After, QueueFibers, PoolFibers;
    var n: nat, now: nat, run: seq<Step> :| Legal(Start(n, now), run) && After(Start(n, now), run) == s;
    StartInv(n, now);
    StartLine(n, now);
    RunInLine(Start(n, now), run);
    RunKeeps(Start(n, now), run);
    assert Wants(s.fibers, f);
    if f !in QueueFibers(s.queue) {
      var w := WorkerOf(s.workers, f);
      if s.workers[w].cbFiber == Some(f) {
        CbFiberReady(s, w);
      }
    }
  }

  lemma WorkerOf(ws: Workers, f: FiberId) returns (w: WorkerId)
    requires f in PoolFibers(ws)
    ensures w < |ws| && f in WorkerFibers(ws[w])
  {
    hide WorkerFibers;
    w :| 0 <= w < |ws| && f in WorkerFibers(ws[w]);
  }

  /** A callback fiber that is READY is the one its worker is running. */
  lemma CbFiberReady(s: State, w: WorkerId)
    requires Inv(s) && w < |s.workers| && s.workers[w].cbFiber.Some?
    requires s.workers[w].cbFiber.value in s.fibers && s.fibers[s.workers[w].cbFiber.value].state == Ready
    ensures s.workers[w].OnCpu() == s.workers[w].cbFiber
  {
    hide CallInv, CountActive, AllTickets, Unique, TimersOnce, CpuStates, CpuDistinct, HandsIdle, ArmedRun;
  }

  // ----- what wakes -----

  /** The step delivers or cancels the event of slot `k`, and epoll_ctl succeeds. */
  predicate Covers(step: Step, k: Slot) {
    match step
    case OnWorker(_, IdleReady(fd, events, ok)) => ok && k.fd == fd && k.event in events
    case Program(_, CancelEvent(slot, ok)) => ok && slot == k
    case Program(_, CancelAll(fd, ok)) => ok && k.fd == fd
    case _ => false
  }

  /** Whatever waits for an event that is delivered or cancelled goes into the queue, and its slot is free. */
  lemma EventsWake(s: State, step: Step, k: Slot)
    requires Enabled(s, step) && Covers(step, k) && k in s.slots
    ensures k !in Next(s, step).slots && Task(s.slots[k], None) in Next(s, step).queue
  {
    hide CanWork, CanAct, Trigger, TriggerBoth;
    TriggerMoves(s, k);
    match step
    case OnWorker(_, IdleReady(fd, events, _)) => TriggerBothMoves(s, fd, events, k);
    case Program(_, CancelAll(fd, _)) => KnownEvent(k.event); TriggerBothMoves(s, fd, {Read, Write}, k);
    case _ =>
  }

  lemma KnownEvent(e: Event)
    ensures e in {Read, Write}
  {
    match e
    case Read =>
    case Write =>
  }

  lemma TriggerMoves(s: State, k: Slot)
    requires k in s.slots
    ensures k !in Trigger(s, k).slots && Task(s.slots[k], None) in Trigger(s, k).queue
  {}

  lemma TriggerOther(s: State, k: Slot, o: Slot)
    requires o in s.slots && k != o
    ensures o in Trigger(s, k).slots && Trigger(s, k).slots[o] == s.slots[o]
  {}

  lemma TriggerBothMoves(s: State, fd: nat, events: set<Event>, k: Slot)
    requires k in s.slots && k.fd == fd && k.event in events
    ensures k !in TriggerBoth(s, fd, events).slots && Task(s.slots[k], None) in TriggerBoth(s, fd, events).queue
  {
    hide Trigger;
    var r, w := Slot(fd, Read), Slot(fd, Write);
    assert k == r || k == w by { KnownEvent(k.event); }
    if k == r {
      TriggerMoves(s, r);
      GoneStays(Trigger(s, r), w, r, Task(s.slots[r], None));
    } else {
      if Read in events {
        TriggerOther(s, r, w);
        TriggerMoves(Trigger(s, r), w);
      } else {
        TriggerMoves(s, w);
      }
    }
  }

  lemma GoneStays(s: State, k: Slot, gone: Slot, t: Task)
    requires gone !in s.slots && t in s.queue
    ensures gone !in Trigger(s, k).slots && t in Trigger(s, k).queue
  {}

  /** Every due timer's callback goes into the queue; the timer stays exactly if it is recurring, with
      its next deadline; timers that are not due are untouched. */
  lemma TimersFire(s: State, w: WorkerId, order: seq<nat>, id: nat)
    requires CanWork(s, w, IdleExpire(order)) && id in s.timers
    ensures
      var t := WorkStep(s, w, IdleExpire(order));
      if Due(s, id) then
        && Task(CallWork(s.timers[id].cb), None) in t.queue
        && (id in t.timers <==> s.timers[id].recurring)
        && (id in t.timers ==> t.timers[id] == s.timers[id].(next := Deadline(s.now, s.timers[id].ms)))
      else id in t.timers && t.timers[id] == s.timers[id]
  {
    if Due(s, id) {
      var i :| 0 <= i < |order| && order[i] == id;
      assert ExpireStep(s, order).queue[|s.queue| + i] == Task(CallWork(s.timers[id].cb), None);
    }
  }

  // ----- parking and running -----

  /** The place where a parking fiber leaves its wake-up. */
  function LeftAt(s: State, w: WorkerId, step: FiberStep): Option<Place>
    requires CanRun(s, w, step)
  {
    match step
    case WaitEvent(k, true) => Some(InSlot(k))
    case Sleep(_) => Some(InTimer(s.nextTimer))
    case SwitchTo(_) => Some(Queued(|s.queue|))
    case IoAdd(true) => Some(InSlot(s.calls[Self(s, w).io.value].slot))
    case _ => None
  }

  /** A fiber that is about to park has handed out its wake-up first, and only then is it bound to
      switch out; with NoLostWakeup this is why it comes back. */
  lemma ParkingHasWakeup(s: State, w: WorkerId, step: FiberStep)
    requires CanRun(s, w, step) && LeftAt(s, w, step).Some?
    ensures var t := RunStep(s, w, step);
            && TicketAt(t, Current(s, w), LeftAt(s, w, step).value) && Current(s, w) in AllTickets(t)
            && Runs(t, w) && Self(t, w).armed
  {
    hide AllTickets;
    assert TicketAt(RunStep(s, w, step), Current(s, w), LeftAt(s, w, step).value);
    Guarantees.PendingSomewhere(RunStep(s, w, step), Current(s, w));
  }

  // ----- every callback runs once -----

  predicate Holds(x: Worker, t: Task) {
    x.pc == Holding(t)
  }

  /** How many workers have taken this task and not yet acted on it. */
  function InHands(ws: Workers, t: Task): nat {
    if ws == [] then 0 else (if Holds(ws[0], t) then 1 else 0) + InHands(ws[1..], t)
  }

  lemma {:induction false} HandsUpdate(ws: Workers, w: WorkerId, x: Worker, t: Task)
    requires w < |ws|
    ensures InHands(ws[w := x], t) + (if Holds(ws[w], t) then 1 else 0) == InHands(ws, t) + if Holds(x, t) then 1 else 0
  {
    if w == 0 {
      assert ws[0 := x][1..] == ws[1..];
    } else {
      HandsUpdate(ws[1..], w - 1, x, t);
      assert ws[w := x][1..] == ws[1..][w - 1 := x];
    }
  }

  /** The step leaves a worker running a callback fiber of its own whose whole body is the callback of
      the task that it held. */
  ghost predicate RunsCallback(s: State, step: Step, t: Task)
    requires Enabled(s, step) && t.work.CallWork?
  {
    && step.OnWorker? && step.w < |s.workers| && Holds(s.workers[step.w], t)
    && var n := Next(s, step);
    && step.w < |n.workers| && n.workers[step.w].pc.Running? && n.workers[step.w].cbFiber == Some(n.workers[step.w].pc.fiber)
    && n.workers[step.w].pc.fiber in n.fibers
    && n.fibers[n.workers[step.w].pc.fiber] == Fiber(Exec, false, Some(t.work.cb), None)
  }

  /** How often the run starts the callback of this task. */
  ghost function Starts(s: State, run: seq<Step>, t: Task): nat
    requires Legal(s, run) && t.work.CallWork?
    decreases |run|
  {
    if run == [] then 0 else (if RunsCallback(s, run[0], t) then 1 else 0) + Starts(Next(s, run[0]), run[1..], t)
  }

  lemma DispatchRuns(s: State, w: WorkerId, spare: FiberId, t: Task)
    requires CanDispatch(s, w, spare) && t.work.CallWork?
    ensures RunsCallback(s, OnWorker(w, Dispatch(spare)), t) <==> Holds(s.workers[w], t)
    ensures !Holds(DispatchStep(s, w, spare).workers[w], t)
  {}

  lemma ScanHand(s: State, w: WorkerId, t: Task)
    requires w < |s.workers| && s.workers[w].pc.Scanning?
    ensures (if Holds(ScanStep(s, w).workers[w], t) then 1 else 0) == Guarantees.TakenBy(s, OnWorker(w, Scan))[t]
  {
    hide RemoveAt, FirstEligible, ExecIds;
  }

  /** A worker that holds nothing and neither scans nor dispatches still holds nothing afterwards. */
  lemma RestHand(s: State, w: WorkerId, step: WorkerStep, t: Task)
    requires CanWork(s, w, step) && !step.Scan? && !step.Dispatch?
    ensures !Holds(s.workers[w], t) && !Holds(WorkStep(s, w, step).workers[w], t)
  {
    hide TriggerBoth, ExpiryOrder, Stopping, PostRunStep;
    match step
    case IdleReady(fd, events, _) => TriggerBothFrame(s, fd, events);
    case IdleExpire(order) => OrderKnown(s, order);
    case PostRun => PostRunHand(s, w);
    case _ =>
  }

  lemma PostRunHand(s: State, w: WorkerId)
    requires CanPostRun(s, w)
    ensures PostRunStep(s, w).workers[w].pc == Scanning
  {
    hide Settled;
  }

  lemma InsideHand(s: State, w: WorkerId, step: FiberStep)
    requires CanRun(s, w, step)
    ensures !RunStep(s, w, step).workers[w].pc.Holding?
  {
    hide Leave;
    if step.YieldReady? || step.YieldHold? || step.Finish? {
      LeaveHand(s, w, Ready);
      LeaveHand(s, w, Self(s, w).state);
      LeaveHand(s, w, Term);
      LeaveHand(s, w, Except);
    } else {
      hide RunStep;
      InsideSame(s, w, step);
    }
  }

  lemma LeaveHand(s: State, w: WorkerId, state: FiberState)
    requires Runs(s, w)
    ensures Leave(s, w, state).workers[w].pc.Returned?
  {}

  lemma WorkHands(s: State, w: WorkerId, work: WorkerStep, t: Task)
    requires CanWork(s, w, work) && t.work.CallWork?
    ensures InHands(WorkStep(s, w, work).workers, t) + (if RunsCallback(s, OnWorker(w, work), t) then 1 else 0)
            == InHands(s.workers, t) + Guarantees.TakenBy(s, OnWorker(w, work))[t]
  {
    hide ScanStep, DispatchStep, PostRunStep, ExpireStep, TriggerBoth, Stopping, ExpiryOrder, Guarantees.TakenBy;
    WorkRecounts(s, w, work);
    HandsUpdate(s.workers, w, WorkStep(s, w, work).workers[w], t);
    match work
    case Scan => ScanHand(s, w, t);
    case Dispatch(spare) => DispatchRuns(s, w, spare, t); NothingTaken(s, OnWorker(w, work));
    case _ => RestHand(s, w, work, t); NothingTaken(s, OnWorker(w, work));
  }

  lemma NothingTaken(s: State, step: Step)
    requires !(step.OnWorker? && step.work.Scan?)
    ensures Guarantees.TakenBy(s, step) == multiset{}
  {}

  /** Only a scan fills a hand, with the task it takes, and only a dispatch empties one. */
  lemma StepHands(s: State, step: Step, t: Task)
    requires Enabled(s, step) && t.work.CallWork?
    ensures InHands(Next(s, step).workers, t) + (if RunsCallback(s, step, t) then 1 else 0)
            == InHands(s.workers, t) + Guarantees.TakenBy(s, step)[t]
  {
    hide CanWork, WorkStep, CanRun, RunStep, CanAct, ActStep, Guarantees.TakenBy;
    match step
    case Tick(_) => NothingTaken(s, step);
    case OnWorker(w, work) => WorkHands(s, w, work, t);
    case InFiber(w, act) =>
      NothingTaken(s, step);
      RunRecounts(s, w, act);
      InsideHand(s, w, act);
      StillRuns(s, w, act);
      HandsUpdate(s.workers, w, Next(s, step).workers[w], t);
    case Program(_, action) => NothingTaken(s, step); ActRecounts(s, action);
  }

  lemma StillRuns(s: State, w: WorkerId, step: FiberStep)
    requires CanRun(s, w, step)
    ensures w < |s.workers| && s.workers[w].pc.Running?
  {}

  /** Main result: over any run, a callback that was scheduled is started exactly once. What was queued,
      in a worker's hand, or entered the queue during the run, is at its end queued, in a hand, or was
      started as the whole body of a worker's callback fiber, occurrence by occurrence. */
  lemma {:induction false} CallbacksRunOnce(s: State, run: seq<Step>, t: Task)
    requires Legal(s, run) && t.work.CallWork?
    ensures var e := After(s, run);
            multiset(e.queue)[t] + InHands(e.workers, t) + Starts(s, run, t)
            == multiset(s.queue)[t] + InHands(s.workers, t) + Guarantees.Entered(s, run)[t]
    decreases |run|
  {
    hide Enabled, Next, RunsCallback, Guarantees.TakenBy, Guarantees.EnteredBy, InHands;
    if run != [] {
      Guarantees.StepConserves(s, run[0]);
      var n := Next(s, run[0]);
      assert (multiset(n.queue) + Guarantees.TakenBy(s, run[0]))[t] == (multiset(s.queue) + Guarantees.EnteredBy(s, run[0]))[t];
      StepHands(s, run[0], t);
      CallbacksRunOnce(n, run[1..], t);
    }
  }
}
