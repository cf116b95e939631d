/** The fiber runtime as a step machine: N scheduler workers, one shared queue, event slots,
    timers, and the parking protocols of the blocking-call hooks.

    One step is one critical section of the source, with these pieces taken as single steps:
    a scan of the queue, the bookkeeping after a fiber switched out, a timer callback's body,
    expiry of timers together with scheduling their callbacks, delivery of an epoll event together
    with its handling, and one evaluation of `stopping`. Program code that runs inside a fiber is
    unconstrained except that a fiber which has just handed out its own wake-up must switch out
    next, as every hook does. The clock never goes back. */
module Runtime {
  import opened Wrappers
  import opened Tasks

  /** Where a worker is inside `Scheduler::run`. */
  datatype Pc =
    | Scanning                               // at the loop head
    | Holding(task: Task)                    // a task was taken, nothing dispatched yet
    | Running(fiber: FiberId, viaCb: bool)   // a fiber is swapped in
    | Returned(fiber: FiberId, viaCb: bool)  // the fiber switched out, bookkeeping is due
    | Idling                                 // inside the idle fiber
    | Exited

  /** `cbFiber` is the fiber kept for callbacks; `idleDone` says the idle fiber has terminated. */
  datatype Worker = Worker(pc: Pc, cbFiber: Option<FiberId>, idleDone: bool) {
    function OnCpu(): Option<FiberId> {
      if pc.Running? || pc.Returned? then Some(pc.fiber) else None
    }

    predicate Active() {
      pc.Holding? || pc.Running? || pc.Returned?
    }
  }

  /** `armed`: the fiber has handed out its own wake-up and must switch out next.
      `body`: the callback that a callback fiber runs. `io`: the blocking call it is inside. */
  datatype Fiber = Fiber(state: FiberState, armed: bool, body: Option<Callback>, io: Option<CallId>) {
    /** Runs code of the program rather than a closure of the runtime. */
    predicate Free() {
      !armed && io == None && (body == None || body.value.User?)
    }
  }

  datatype TimerEntry = TimerEntry(next: nat, ms: nat, recurring: bool, cb: Callback)

  datatype IoStage = Trying | TimerSet | Parked

  /** The local state of one blocking call, `tinfo` included: the call is in the live table
      exactly while the shared timer_info exists. */
  datatype IoCall = IoCall(slot: Slot, timeout: Option<nat>, begun: nat,
                           timer: Option<nat>, timedOutAt: Option<nat>, stage: IoStage)

  datatype IoResult = Completed | AddFailed | TimedOut

  datatype IoReturn = IoReturn(id: CallId, call: IoCall, at: nat, result: IoResult)

  datatype State = State(
    now: nat,
    workers: seq<Worker>,
    fibers: map<FiberId, Fiber>,
    queue: seq<Task>,
    active: int,
    slots: map<Slot, Work>,
    timers: map<nat, TimerEntry>,
    nextTimer: nat,
    calls: map<CallId, IoCall>,
    nextCall: nat,
    finished: seq<IoReturn>,
    stopRequested: bool)

  /** What program code may do, inside a free fiber or on a thread outside the scheduler. */
  datatype Action =
    | Spawn(fiber: FiberId, thread: Option<WorkerId>)
    | Submit(fiber: FiberId, thread: Option<WorkerId>)
    | Call(tag: nat, thread: Option<WorkerId>)
    | OnEvent(slot: Slot, tag: nat, ok: bool)
    | DelEvent(slot: Slot, ok: bool)
    | CancelEvent(slot: Slot, ok: bool)
    | CancelAll(fd: nat, ok: bool)
    | StartTimer(ms: nat, tag: nat, recurring: bool)
    | StopTimer(id: nat)
    | RequestStop

  /** Steps of `Scheduler::run` and of the idle fiber. */
  datatype WorkerStep =
    | Scan
    | Dispatch(spare: FiberId)
    | PostRun
    | IdleStop
    | IdleExpire(order: seq<nat>)
    | IdleReady(fd: nat, events: set<Event>, ok: bool)
    | IdleYield

  /** Steps of the fiber that is running: its own parking, and the runtime's closures and hooks. */
  datatype FiberStep =
    | WaitEvent(slot: Slot, ok: bool)
    | Sleep(ms: nat)
    | SwitchTo(thread: Option<WorkerId>)
    | YieldReady
    | YieldHold
    | Finish(threw: bool)
    | RunResume
    | RunTimeout(ok: bool)
    | IoBegin(slot: Slot, timeout: Option<nat>)
    | IoDone
    | IoTimer
    | IoAdd(ok: bool)
    | IoWake

  datatype Step =
    | Tick(elapsed: nat)
    | OnWorker(w: WorkerId, work: WorkerStep)
    | InFiber(w: WorkerId, act: FiberStep)
    | Program(who: Option<WorkerId>, action: Action)

  // ----- views of a state -----

  function ExecIds(s: State): set<FiberId> {
    set f | f in s.fibers && s.fibers[f].state == Exec
  }

  predicate Runs(s: State, w: WorkerId) {
    w < |s.workers| && s.workers[w].pc.Running? && s.workers[w].pc.fiber in s.fibers
  }

  function Current(s: State, w: WorkerId): FiberId
    requires Runs(s, w)
  {
    s.workers[w].pc.fiber
  }

  function Self(s: State, w: WorkerId): Fiber
    requires Runs(s, w)
  {
    s.fibers[Current(s, w)]
  }

  /** Worker `w` runs a fiber that executes program code. */
  predicate RunsProgram(s: State, w: WorkerId) {
    Runs(s, w) && Self(s, w).Free()
  }

  /** Worker `w` runs a fiber that is inside the blocking call `Self(s, w).io`. */
  predicate RunsIo(s: State, w: WorkerId, stage: IoStage) {
    && Runs(s, w)
    && !Self(s, w).armed
    && Self(s, w).io.Some?
    && Self(s, w).io.value in s.calls
    && s.calls[Self(s, w).io.value].stage == stage
  }

  predicate Stopping(s: State) {
    s.stopRequested && s.timers == map[] && s.slots == map[] && s.queue == [] && s.active == 0
  }

  predicate Due(s: State, id: nat)
    requires id in s.timers
  {
    s.timers[id].next <= s.now
  }

  /** `order` lists every due timer once, earliest deadline first. */
  ghost predicate ExpiryOrder(s: State, order: seq<nat>) {
    && (forall i :: 0 <= i < |order| ==> order[i] in s.timers && Due(s, order[i]))
    && (forall id :: id in s.timers && Due(s, id) ==> id in order)
    && (forall i, j :: 0 <= i < j < |order| ==> order[i] != order[j])
    && (forall i, j :: 0 <= i < j < |order| ==> s.timers[order[i]].next <= s.timers[order[j]].next)
  }

  ghost predicate NotOnCpu(s: State, f: FiberId) {
    forall w :: 0 <= w < |s.workers| ==> s.workers[w].OnCpu() != Some(f)
  }

  ghost predicate NotCbFiber(s: State, f: FiberId) {
    forall w :: 0 <= w < |s.workers| ==> s.workers[w].cbFiber != Some(f)
  }

  /** The places a pending wake-up can be in. */
  datatype Place =
    | Queued(index: nat)
    | InSlot(slot: Slot)
    | InTimer(id: nat)
    | InHand(w: WorkerId)
    | InBody(runner: FiberId)

  /** There is a pending wake-up of `f` at this place. */
  predicate TicketAt(s: State, f: FiberId, at: Place) {
    match at
    case Queued(i) => i < |s.queue| && TicketOf(s.queue[i].work) == Some(f)
    case InSlot(k) => k in s.slots && TicketOf(s.slots[k]) == Some(f)
    case InTimer(id) => id in s.timers && s.timers[id].cb == Resume(f)
    case InHand(w) => w < |s.workers| && s.workers[w].pc.Holding? && TicketOf(s.workers[w].pc.task.work) == Some(f)
    case InBody(g) => g in s.fibers && s.fibers[g].body == Some(Resume(f))
  }

  ghost predicate NoTicket(s: State, f: FiberId) {
    forall at :: !TicketAt(s, f, at)
  }

  // ----- updates -----

  function SetWorker(s: State, w: WorkerId, worker: Worker): State
    requires w < |s.workers|
  {
    s.(workers := s.workers[w := worker])
  }

  function SetPc(s: State, w: WorkerId, pc: Pc): State
    requires w < |s.workers|
  {
    SetWorker(s, w, s.workers[w].(pc := pc))
  }

  function SetFiber(s: State, f: FiberId, fiber: Fiber): State {
    s.(fibers := s.fibers[f := fiber])
  }

  function Push(s: State, work: Work, thread: Option<WorkerId>): State {
    s.(queue := s.queue + [Task(work, thread)])
  }

  /** FdContext::triggerEvent: the slot's content moves to the queue. */
  function Trigger(s: State, k: Slot): State {
    if k in s.slots then Push(s, s.slots[k], None).(slots := s.slots - {k}) else s
  }

  function TriggerBoth(s: State, fd: nat, events: set<Event>): State {
    var s1 := if Read in events then Trigger(s, Slot(fd, Read)) else s;
    if Write in events then Trigger(s1, Slot(fd, Write)) else s1
  }

  function AddTimer(s: State, ms: nat, recurring: bool, cb: Callback): State {
    s.(timers := s.timers[s.nextTimer := TimerEntry(Deadline(s.now, ms), ms, recurring, cb)],
       nextTimer := s.nextTimer + 1)
  }

  function DropTimer(s: State, id: Option<nat>): State {
    if id.Some? then s.(timers := s.timers - {id.value}) else s
  }

  // ----- the steps of a worker -----

  function ScanStep(s: State, w: WorkerId): State
    requires w < |s.workers|
  {
    var k := FirstEligible(s.queue, w, ExecIds(s));
    if k < |s.queue| then
      SetPc(s, w, Holding(s.queue[k])).(queue := RemoveAt(s.queue, k), active := s.active + 1)
    else if s.workers[w].idleDone then SetPc(s, w, Exited)
    else SetPc(s, w, Idling)
  }

  predicate CanDispatch(s: State, w: WorkerId, spare: FiberId) {
    && w < |s.workers| && s.workers[w].pc.Holding?
    && (s.workers[w].pc.task.work.FiberWork? ==> s.workers[w].pc.task.work.fiber in s.fibers)
    && spare !in s.fibers
  }

  function DispatchStep(s: State, w: WorkerId, spare: FiberId): State
    requires CanDispatch(s, w, spare)
  {
    match s.workers[w].pc.task.work
    case FiberWork(f) =>
      if s.fibers[f].state in {Term, Except} then SetPc(s, w, Scanning).(active := s.active - 1)
      else SetFiber(SetPc(s, w, Running(f, false)), f, s.fibers[f].(state := Exec))
    case CallWork(cb) =>
      var g := if s.workers[w].cbFiber.Some? then s.workers[w].cbFiber.value else spare;
      SetFiber(SetWorker(s, w, s.workers[w].(pc := Running(g, true), cbFiber := Some(g))),
               g, Fiber(Exec, false, Some(cb), None))
  }

  predicate CanPostRun(s: State, w: WorkerId) {
    w < |s.workers| && s.workers[w].pc.Returned? && s.workers[w].pc.fiber in s.fibers
  }

  /** The fiber's state after the bookkeeping. */
  function Settled(fiber: Fiber, viaCb: bool): Fiber {
    if fiber.state in {Term, Except} then
      if viaCb then Fiber(Init, false, None, None) else fiber
    else if fiber.state == Ready then fiber
    else fiber.(state := Hold)
  }

  /** The worker is free again; it keeps its callback fiber only if that one has ended. */
  function Settle(s: State, w: WorkerId): State
    requires CanPostRun(s, w)
  {
    var f, viaCb := s.workers[w].pc.fiber, s.workers[w].pc.viaCb;
    var keep := !viaCb || s.fibers[f].state in {Term, Except};
    SetFiber(SetWorker(s, w, Worker(Scanning, if keep then s.workers[w].cbFiber else None, s.workers[w].idleDone)),
             f, Settled(s.fibers[f], viaCb)).(active := s.active - 1)
  }

  function PostRunStep(s: State, w: WorkerId): State
    requires CanPostRun(s, w)
  {
    var f := s.workers[w].pc.fiber;
    if s.fibers[f].state == Ready then Push(Settle(s, w), FiberWork(f), None) else Settle(s, w)
  }

  function ExpireStep(s: State, order: seq<nat>): State
    requires forall i :: 0 <= i < |order| ==> order[i] in s.timers
  {
    s.(queue := s.queue + seq(|order|, i requires 0 <= i < |order| => Task(CallWork(s.timers[order[i]].cb), None)),
       timers := map id | id in s.timers && (id in order ==> s.timers[id].recurring) ::
                   if id in order then s.timers[id].(next := Deadline(s.now, s.timers[id].ms)) else s.timers[id])
  }

  // ----- the steps of program code -----

  ghost predicate CanAct(s: State, action: Action) {
    match action
    case Spawn(f, _) => f !in s.fibers
    case Submit(f, _) => f in s.fibers && NoTicket(s, f) && NotOnCpu(s, f) && NotCbFiber(s, f)
    case OnEvent(k, _, _) => k !in s.slots
    case StopTimer(id) => id in s.timers ==> s.timers[id].cb.User?
    case _ => true
  }

  function ActStep(s: State, action: Action): State {
    match action
    case Spawn(f, thread) => Push(SetFiber(s, f, Fiber(Init, false, None, None)), FiberWork(f), thread)
    case Submit(f, thread) => Push(s, FiberWork(f), thread)
    case Call(tag, thread) => Push(s, CallWork(User(tag)), thread)
    case OnEvent(k, tag, ok) => if ok then s.(slots := s.slots[k := CallWork(User(tag))]) else s
    case DelEvent(k, ok) => if ok then s.(slots := s.slots - {k}) else s
    case CancelEvent(k, ok) => if ok then Trigger(s, k) else s
    case CancelAll(fd, ok) => if ok then TriggerBoth(s, fd, {Read, Write}) else s
    case StartTimer(ms, tag, recurring) => AddTimer(s, ms, recurring, User(tag))
    case StopTimer(id) => DropTimer(s, Some(id))
    case RequestStop => s.(stopRequested := true)
  }

  /** The running fiber hands out its own wake-up. */
  function Arm(s: State, w: WorkerId): State
    requires Runs(s, w)
  {
    SetFiber(s, Current(s, w), Self(s, w).(armed := true))
  }

  /** The running fiber switches out in the given state. */
  function Leave(s: State, w: WorkerId, state: FiberState): State
    requires Runs(s, w)
  {
    SetFiber(SetPc(s, w, Returned(Current(s, w), s.workers[w].pc.viaCb)),
             Current(s, w), Self(s, w).(state := state, armed := false))
  }

  function ClearBody(s: State, w: WorkerId): State
    requires Runs(s, w)
  {
    SetFiber(s, Current(s, w), Self(s, w).(body := None))
  }

  predicate RunsBody(s: State, w: WorkerId) {
    Runs(s, w) && !Self(s, w).armed && Self(s, w).io == None && Self(s, w).body.Some?
  }

  /** The sleep hooks' closure: put the sleeping fiber back into the queue. */
  function RunResumeStep(s: State, w: WorkerId): State
    requires RunsBody(s, w) && Self(s, w).body.value.Resume?
  {
    Push(ClearBody(s, w), FiberWork(Self(s, w).body.value.fiber), None)
  }

  /** The do_io timer lambda: inert when the call is over or already cancelled. */
  function RunTimeoutStep(s: State, w: WorkerId, ok: bool): State
    requires RunsBody(s, w) && Self(s, w).body.value.Timeout?
  {
    var c, k := Self(s, w).body.value.call, Self(s, w).body.value.slot;
    var s1 := ClearBody(s, w);
    if c in s.calls && s.calls[c].timedOutAt == None then
      var s2 := s1.(calls := s.calls[c := s.calls[c].(timedOutAt := Some(s.now))]);
      if ok then Trigger(s2, k) else s2
    else s1
  }

  function IoBeginStep(s: State, w: WorkerId, k: Slot, timeout: Option<nat>): State
    requires Runs(s, w)
  {
    SetFiber(s, Current(s, w), Self(s, w).(io := Some(s.nextCall)))
    .(calls := s.calls[s.nextCall := IoCall(k, timeout, s.now, None, None, Trying)], nextCall := s.nextCall + 1)
  }

  /** The blocking call returns: `tinfo` dies, a timer still pending is cancelled. */
  function IoReturnStep(s: State, w: WorkerId, result: IoResult): State
    requires Runs(s, w) && Self(s, w).io.Some? && Self(s, w).io.value in s.calls
  {
    var c := Self(s, w).io.value;
    DropTimer(SetFiber(s, Current(s, w), Self(s, w).(io := None)), s.calls[c].timer)
    .(calls := s.calls - {c}, finished := s.finished + [IoReturn(c, s.calls[c], s.now, result)])
  }

  function IoTimerStep(s: State, w: WorkerId): State
    requires Runs(s, w) && Self(s, w).io.Some? && Self(s, w).io.value in s.calls
  {
    var c := Self(s, w).io.value;
    var call := s.calls[c];
    if call.timeout.Some? then
      AddTimer(s, call.timeout.value, false, Timeout(c, call.slot))
      .(calls := s.calls[c := call.(timer := Some(s.nextTimer), stage := TimerSet)])
    else s.(calls := s.calls[c := call.(timer := None, stage := TimerSet)])
  }

  function IoAddStep(s: State, w: WorkerId, ok: bool): State
    requires Runs(s, w) && Self(s, w).io.Some? && Self(s, w).io.value in s.calls
  {
    var c := Self(s, w).io.value;
    if !ok then IoReturnStep(s, w, AddFailed)
    else
      Arm(s, w).(slots := s.slots[s.calls[c].slot := FiberWork(Current(s, w))],
                 calls := s.calls[c := s.calls[c].(stage := Parked)])
  }

  /** Woken up: cancel the timer, then report the timeout or try the call again. */
  function IoWakeStep(s: State, w: WorkerId): State
    requires Runs(s, w) && Self(s, w).io.Some? && Self(s, w).io.value in s.calls
  {
    var c := Self(s, w).io.value;
    if s.calls[c].timedOutAt.Some? then IoReturnStep(s, w, TimedOut)
    else DropTimer(s, s.calls[c].timer).(calls := s.calls[c := s.calls[c].(timer := None, stage := Trying)])
  }

  // ----- the machine -----

  ghost predicate CanWork(s: State, w: WorkerId, step: WorkerStep) {
    && w < |s.workers|
    && match step
       case Scan => s.workers[w].pc.Scanning?
       case Dispatch(spare) => CanDispatch(s, w, spare)
       case PostRun => CanPostRun(s, w)
       case IdleStop => s.workers[w].pc.Idling? && Stopping(s)
       case IdleExpire(order) => s.workers[w].pc.Idling? && ExpiryOrder(s, order)
       case IdleReady(fd, events, _) => s.workers[w].pc.Idling? && (forall e :: e in events ==> Slot(fd, e) in s.slots)
       case IdleYield => s.workers[w].pc.Idling?
  }

  function WorkStep(s: State, w: WorkerId, step: WorkerStep): State
    requires CanWork(s, w, step)
  {
    match step
    case Scan => ScanStep(s, w)
    case Dispatch(spare) => DispatchStep(s, w, spare)
    case PostRun => PostRunStep(s, w)
    case IdleStop => SetWorker(s, w, s.workers[w].(pc := Scanning, idleDone := true))
    case IdleExpire(order) => ExpireStep(s, order)
    case IdleReady(fd, events, ok) => if ok then TriggerBoth(s, fd, events) else s
    case IdleYield => SetPc(s, w, Scanning)
  }

  predicate CanRun(s: State, w: WorkerId, step: FiberStep) {
    match step
    case WaitEvent(k, _) => RunsProgram(s, w) && k !in s.slots
    case Sleep(_) => RunsProgram(s, w)
    case SwitchTo(_) => RunsProgram(s, w)
    case YieldReady => RunsProgram(s, w)
    case YieldHold => RunsProgram(s, w) || (Runs(s, w) && Self(s, w).armed)
    case Finish(_) => RunsProgram(s, w)
    case RunResume => RunsBody(s, w) && Self(s, w).body.value.Resume?
    case RunTimeout(_) => RunsBody(s, w) && Self(s, w).body.value.Timeout?
    case IoBegin(_, _) => RunsProgram(s, w)
    case IoDone => RunsIo(s, w, Trying)
    case IoTimer => RunsIo(s, w, Trying)
    case IoAdd(_) => RunsIo(s, w, TimerSet) && s.calls[Self(s, w).io.value].slot !in s.slots
    case IoWake => RunsIo(s, w, Parked)
  }

  function RunStep(s: State, w: WorkerId, step: FiberStep): State
    requires CanRun(s, w, step)
  {
    match step
    case WaitEvent(k, ok) => if ok then Arm(s, w).(slots := s.slots[k := FiberWork(Current(s, w))]) else s
    case Sleep(ms) => AddTimer(Arm(s, w), ms, false, Resume(Current(s, w)))
    case SwitchTo(thread) => Push(Arm(s, w), FiberWork(Current(s, w)), thread)
    case YieldReady => Leave(s, w, Ready)
    case YieldHold => Leave(s, w, Self(s, w).state)
    case Finish(threw) => Leave(s, w, if threw then Except else Term)
    case RunResume => RunResumeStep(s, w)
    case RunTimeout(ok) => RunTimeoutStep(s, w, ok)
    case IoBegin(k, timeout) => IoBeginStep(s, w, k, timeout)
    case IoDone => IoReturnStep(s, w, Completed)
    case IoTimer => IoTimerStep(s, w)
    case IoAdd(ok) => IoAddStep(s, w, ok)
    case IoWake => IoWakeStep(s, w)
  }

  /** When a step can be taken. The source's assertions are not part of it: see AssertionsHold. */
  ghost predicate Enabled(s: State, step: Step) {
    match step
    case Tick(_) => true
    case OnWorker(w, work) => CanWork(s, w, work)
    case InFiber(w, act) => CanRun(s, w, act)
    case Program(who, action) => (who.Some? ==> RunsProgram(s, who.value)) && CanAct(s, action)
  }

  function Next(s: State, step: Step): State
    requires Enabled(s, step)
  {
    match step
    case Tick(d) => s.(now := s.now + d)
    case OnWorker(w, work) => WorkStep(s, w, work)
    case InFiber(w, act) => RunStep(s, w, act)
    case Program(_, action) => ActStep(s, action)
  }

  /** `n` workers at their loop heads, nothing scheduled. */
  function Start(n: nat, now: nat): State {
    State(now, seq(n, _ => Worker(Scanning, None, false)), map[], [], 0, map[], map[], 0, map[], 0, [], false)
  }

  /** The steps can be taken one after the other. */
  ghost predicate Legal(s: State, run: seq<Step>)
    decreases |run|
  {
    run != [] ==> Enabled(s, run[0]) && Legal(Next(s, run[0]), run[1..])
  }

  ghost function After(s: State, run: seq<Step>): State
    requires Legal(s, run)
    decreases |run|
  {
    if run == [] then s else After(Next(s, run[0]), run[1..])
  }
}
