/** Blocking calls: who owns which call record, which timers and callbacks belong to it, and how
    early a timeout can be reported. */
module Calls {
  import opened Wrappers
  import opened Tasks
  import opened Runtime

  type CallTable = map<CallId, IoCall>

  /** At time `at` the call's timeout has elapsed since it began, unless that sum leaves 64 bits. */
  predicate Elapsed(call: IoCall, at: nat) {
    call.timeout.Some? && (at + call.timeout.value < TWO64 ==> call.begun + call.timeout.value <= at)
  }

  predicate SysBody(f: Fiber) {
    f.body.Some? && !f.body.value.User?
  }

  /** A timer lambda that has left the timer set: if its call is alive, the timeout has elapsed, and the
      lambda cancels the slot of that call. */
  predicate RipeCb(cb: Callback, calls: CallTable, nextCall: nat, now: nat) {
    cb.Timeout? ==> cb.call < nextCall && (cb.call in calls ==> Elapsed(calls[cb.call], now) && cb.slot == calls[cb.call].slot)
  }

  predicate Ripe(work: Work, calls: CallTable, nextCall: nat, now: nat) {
    work.CallWork? ==> RipeCb(work.cb, calls, nextCall, now)
  }

  ghost predicate Owners(fs: map<FiberId, Fiber>, calls: CallTable) {
    && (forall f :: f in fs && fs[f].io.Some? ==> fs[f].io.value in calls)
    && (forall f, g :: f in fs && g in fs && f != g && fs[f].io.Some? ==> fs[f].io != fs[g].io)
  }

  /** A callback of the runtime runs to its end in one go: it never parks. */
  ghost predicate BodiesRun(fs: map<FiberId, Fiber>, ws: seq<Worker>) {
    && (forall f :: f in fs && SysBody(fs[f]) ==> fs[f].state == Exec && !fs[f].armed && fs[f].io == None)
    && (forall w :: 0 <= w < |ws| && ws[w].pc.Returned? && ws[w].pc.fiber in fs ==> !SysBody(fs[ws[w].pc.fiber]))
  }

  ghost predicate Records(calls: CallTable, nextCall: nat, nextTimer: nat, now: nat) {
    forall c :: c in calls ==>
      && c < nextCall
      && calls[c].begun <= now
      && (calls[c].timer.Some? ==> calls[c].timer.value < nextTimer)
      && (calls[c].stage == Trying ==> calls[c].timer == None)
      && (calls[c].timedOutAt.Some? ==> calls[c].timedOutAt.value <= now && Elapsed(calls[c], calls[c].timedOutAt.value))
  }

  /** A timer with the lambda of a call is that call's current timer, and is not early. */
  ghost predicate CallTimers(timers: map<nat, TimerEntry>, calls: CallTable, nextTimer: nat, now: nat) {
    && (forall id :: id in timers ==> id < nextTimer)
    && (forall id :: id in timers && timers[id].cb.Timeout? ==>
          var c := timers[id].cb.call;
          && c in calls && calls[c].timer == Some(id) && calls[c].timeout.Some?
          && timers[id].cb.slot == calls[c].slot && !timers[id].recurring
          && (now + calls[c].timeout.value < TWO64 ==> calls[c].begun + calls[c].timeout.value <= timers[id].next))
    && (forall c :: c in calls && calls[c].timer.Some? && calls[c].timer.value in timers ==>
          timers[calls[c].timer.value].cb == Timeout(c, calls[c].slot))
  }

  ghost predicate QueueRipe(q: seq<Task>, calls: CallTable, nextCall: nat, now: nat) {
    forall i :: 0 <= i < |q| ==> Ripe(q[i].work, calls, nextCall, now)
  }

  ghost predicate HandsRipe(ws: seq<Worker>, calls: CallTable, nextCall: nat, now: nat) {
    forall w :: 0 <= w < |ws| && ws[w].pc.Holding? ==> Ripe(ws[w].pc.task.work, calls, nextCall, now)
  }

  ghost predicate BodiesRipe(fs: map<FiberId, Fiber>, calls: CallTable, nextCall: nat, now: nat) {
    forall f :: f in fs && fs[f].body.Some? ==> RipeCb(fs[f].body.value, calls, nextCall, now)
  }

  ghost predicate SlotsPlain(slots: map<Slot, Work>) {
    forall k :: k in slots && slots[k].CallWork? ==> slots[k].cb.User?
  }

  /** Finished calls are dead for good; a reported timeout had elapsed. */
  ghost predicate Finished(finished: seq<IoReturn>, calls: CallTable, nextCall: nat, now: nat) {
    forall i :: 0 <= i < |finished| ==>
      var r := finished[i];
      && r.id < nextCall && r.id !in calls && r.at <= now
      && (r.result == TimedOut ==>
            r.call.timedOutAt.Some? && r.call.timedOutAt.value <= r.at && Elapsed(r.call, r.call.timedOutAt.value))
  }

  ghost predicate CallInv(s: State) {
    && Owners(s.fibers, s.calls)
    && BodiesRun(s.fibers, s.workers)
    && Records(s.calls, s.nextCall, s.nextTimer, s.now)
    && CallTimers(s.timers, s.calls, s.nextTimer, s.now)
    && QueueRipe(s.queue, s.calls, s.nextCall, s.now)
    && HandsRipe(s.workers, s.calls, s.nextCall, s.now)
    && BodiesRipe(s.fibers, s.calls, s.nextCall, s.now)
    && SlotsPlain(s.slots)
    && Finished(s.finished, s.calls, s.nextCall, s.now)
  }

  lemma TickCalls(s: State, d: nat)
    requires CallInv(s)
    ensures CallInv(s.(now := s.now + d))
  {
    hide Owners, BodiesRun, Records, CallTimers, QueueRipe, HandsRipe, BodiesRipe, SlotsPlain, Finished;
    TickTables(s, d);
    TickRipe(s, d);
  }

  lemma TickTables(s: State, d: nat)
    requires Records(s.calls, s.nextCall, s.nextTimer, s.now) && CallTimers(s.timers, s.calls, s.nextTimer, s.now)
    requires Finished(s.finished, s.calls, s.nextCall, s.now)
    ensures Records(s.calls, s.nextCall, s.nextTimer, s.now + d) && CallTimers(s.timers, s.calls, s.nextTimer, s.now + d)
    ensures Finished(s.finished, s.calls, s.nextCall, s.now + d)
  {}

  lemma TickRipe(s: State, d: nat)
    requires QueueRipe(s.queue, s.calls, s.nextCall, s.now) && HandsRipe(s.workers, s.calls, s.nextCall, s.now)
    requires BodiesRipe(s.fibers, s.calls, s.nextCall, s.now)
    ensures QueueRipe(s.queue, s.calls, s.nextCall, s.now + d) && HandsRipe(s.workers, s.calls, s.nextCall, s.now + d)
    ensures BodiesRipe(s.fibers, s.calls, s.nextCall, s.now + d)
  {}

  lemma TakeRipe(q: seq<Task>, k: nat, calls: CallTable, nextCall: nat, now: nat)
    requires k < |q| && QueueRipe(q, calls, nextCall, now)
    ensures QueueRipe(RemoveAt(q, k), calls, nextCall, now) && Ripe(q[k].work, calls, nextCall, now)
  {}

  /** A worker moves to a place that is not Returned and holds at most the given work. */
  lemma MoveWorker(ws: seq<Worker>, fs: map<FiberId, Fiber>, calls: CallTable, nextCall: nat, now: nat, w: WorkerId, x: Worker)
    requires BodiesRun(fs, ws) && HandsRipe(ws, calls, nextCall, now) && w < |ws|
    requires !x.pc.Returned? && (x.pc.Holding? ==> Ripe(x.pc.task.work, calls, nextCall, now))
    ensures BodiesRun(fs, ws[w := x]) && HandsRipe(ws[w := x], calls, nextCall, now)
  {}

  lemma ScanCalls(s: State, w: WorkerId)
    requires CallInv(s) && w < |s.workers|
    ensures CallInv(ScanStep(s, w))
  {
    hide Owners, BodiesRun, Records, CallTimers, QueueRipe, HandsRipe, BodiesRipe, SlotsPlain, Finished;
    var k := FirstEligible(s.queue, w, ExecIds(s));
    if k < |s.queue| {
      TakeRipe(s.queue, k, s.calls, s.nextCall, s.now);
    }
    MoveWorker(s.workers, s.fibers, s.calls, s.nextCall, s.now, w, ScanStep(s, w).workers[w]);
  }

  lemma PushRipe(q: seq<Task>, t: Task, calls: CallTable, nextCall: nat, now: nat)
    requires QueueRipe(q, calls, nextCall, now) && Ripe(t.work, calls, nextCall, now)
    ensures QueueRipe(q + [t], calls, nextCall, now)
  {}

  lemma PushCalls(s: State, work: Work, thread: Option<WorkerId>)
    requires CallInv(s) && Ripe(work, s.calls, s.nextCall, s.now)
    ensures CallInv(Push(s, work, thread))
  {
    hide Owners, BodiesRun, Records, CallTimers, QueueRipe, HandsRipe, BodiesRipe, SlotsPlain, Finished;
    PushRipe(s.queue, Task(work, thread), s.calls, s.nextCall, s.now);
  }

  lemma SlotsLess(slots: map<Slot, Work>, k: Slot)
    requires SlotsPlain(slots)
    ensures SlotsPlain(slots - {k})
    ensures k in slots && slots[k].CallWork? ==> slots[k].cb.User?
  {}

  lemma SlotDropCalls(s: State, k: Slot)
    requires CallInv(s)
    ensures CallInv(s.(slots := s.slots - {k}))
  {
    hide Owners, BodiesRun, Records, CallTimers, QueueRipe, HandsRipe, BodiesRipe, SlotsPlain, Finished;
    SlotsLess(s.slots, k);
  }

  lemma SlotPutCalls(s: State, k: Slot, work: Work)
    requires CallInv(s) && (work.CallWork? ==> work.cb.User?)
    ensures CallInv(s.(slots := s.slots[k := work]))
  {
    hide Owners, BodiesRun, Records, CallTimers, QueueRipe, HandsRipe, BodiesRipe, Finished;
  }

  lemma TriggerCalls(s: State, k: Slot)
    requires CallInv(s)
    ensures CallInv(Trigger(s, k))
  {
    hide Owners, BodiesRun, Records, CallTimers, QueueRipe, HandsRipe, BodiesRipe, SlotsPlain, Finished;
    SlotsLess(s.slots, k);
    if k in s.slots {
      PushCalls(s, s.slots[k], None);
    }
  }

  lemma TriggerBothCalls(s: State, fd: nat, events: set<Event>)
    requires CallInv(s)
    ensures CallInv(TriggerBoth(s, fd, events))
  {
    hide CallInv, Trigger;
    TriggerCalls(s, Slot(fd, Read));
    TriggerCalls(s, Slot(fd, Write));
    TriggerCalls(Trigger(s, Slot(fd, Read)), Slot(fd, Write));
  }

  lemma StateBodies(fs: map<FiberId, Fiber>, ws: seq<Worker>, f: FiberId)
    requires BodiesRun(fs, ws) && f in fs
    ensures BodiesRun(fs[f := fs[f].(state := Exec)], ws)
  {}

  lemma StateFrame(fs: map<FiberId, Fiber>, f: FiberId, calls: CallTable, nextCall: nat, now: nat)
    requires Owners(fs, calls) && BodiesRipe(fs, calls, nextCall, now) && f in fs
    ensures Owners(fs[f := fs[f].(state := Exec)], calls)
    ensures BodiesRipe(fs[f := fs[f].(state := Exec)], calls, nextCall, now)
  {}

  lemma DispatchFiberCalls(s: State, w: WorkerId, spare: FiberId)
    requires CallInv(s) && CanDispatch(s, w, spare) && s.workers[w].pc.task.work.FiberWork?
    ensures CallInv(DispatchStep(s, w, spare))
  {
    hide Owners, BodiesRun, Records, CallTimers, QueueRipe, HandsRipe, BodiesRipe, SlotsPlain, Finished;
    var f, s' := s.workers[w].pc.task.work.fiber, DispatchStep(s, w, spare);
    MoveWorker(s.workers, s.fibers, s.calls, s.nextCall, s.now, w, s'.workers[w]);
    StateBodies(s.fibers, s'.workers, f);
    StateFrame(s.fibers, f, s.calls, s.nextCall, s.now);
  }

  lemma DispatchCallCalls(s: State, w: WorkerId, spare: FiberId)
    requires CallInv(s) && CanDispatch(s, w, spare) && s.workers[w].pc.task.work.CallWork?
    requires forall w' :: 0 <= w' < |s.workers| ==>
               s.workers[w'].OnCpu() != Some(DispatchStep(s, w, spare).workers[w].pc.fiber)
    ensures CallInv(DispatchStep(s, w, spare))
  {
    hide Records, CallTimers, QueueRipe, SlotsPlain, Finished;
  }

  lemma SettleCalls(s: State, w: WorkerId)
    requires CallInv(s) && CanPostRun(s, w)
    ensures CallInv(Settle(s, w))
  {
    hide Owners, BodiesRun, Records, CallTimers, QueueRipe, HandsRipe, BodiesRipe, SlotsPlain, Finished;
    var f, t := s.workers[w].pc.fiber, Settle(s, w);
    SettleFiber(s.fibers, f, s.workers[w].pc.viaCb, s.calls, s.nextCall, s.now);
    SettleBodies(s.fibers, s.workers, w);
    assert t.workers == s.workers[w := t.workers[w]];
    MoveWorker(s.workers, t.fibers, s.calls, s.nextCall, s.now, w, t.workers[w]);
  }

  lemma SettleFiber(fs: map<FiberId, Fiber>, f: FiberId, viaCb: bool, calls: CallTable, nextCall: nat, now: nat)
    requires Owners(fs, calls) && BodiesRipe(fs, calls, nextCall, now) && f in fs
    ensures Owners(fs[f := Settled(fs[f], viaCb)], calls)
    ensures BodiesRipe(fs[f := Settled(fs[f], viaCb)], calls, nextCall, now)
  {}

  lemma SettleBodies(fs: map<FiberId, Fiber>, ws: seq<Worker>, w: WorkerId)
    requires BodiesRun(fs, ws) && w < |ws| && ws[w].pc.Returned? && ws[w].pc.fiber in fs
    ensures BodiesRun(fs[ws[w].pc.fiber := Settled(fs[ws[w].pc.fiber], ws[w].pc.viaCb)], ws)
  {}

  lemma PostRunCalls(s: State, w: WorkerId)
    requires CallInv(s) && CanPostRun(s, w)
    ensures CallInv(PostRunStep(s, w))
  {
    hide CallInv, Settle;
    SettleCalls(s, w);
    if s.fibers[s.workers[w].pc.fiber].state == Ready {
      PushCalls(Settle(s, w), FiberWork(s.workers[w].pc.fiber), None);
    }
  }

  lemma FiredRipe(s: State, order: seq<nat>)
    requires CallInv(s) && ExpiryOrder(s, order)
    ensures QueueRipe(ExpireStep(s, order).queue, s.calls, s.nextCall, s.now)
  {
    hide Owners, BodiesRun, HandsRipe, BodiesRipe, SlotsPlain, Finished;
    var q := ExpireStep(s, order).queue;
    forall i | 0 <= i < |q| ensures Ripe(q[i].work, s.calls, s.nextCall, s.now) {
      if i < |s.queue| {
        assert q[i] == s.queue[i];
      } else {
        var id := order[i - |s.queue|];
        assert q[i].work == CallWork(s.timers[id].cb) && Due(s, id);
      }
    }
  }

  lemma LeftTimers(s: State, order: seq<nat>)
    requires CallTimers(s.timers, s.calls, s.nextTimer, s.now) && (forall i :: 0 <= i < |order| ==> order[i] in s.timers)
    ensures CallTimers(ExpireStep(s, order).timers, s.calls, s.nextTimer, s.now)
  {}

  lemma ExpireCalls(s: State, order: seq<nat>)
    requires CallInv(s) && ExpiryOrder(s, order)
    ensures CallInv(ExpireStep(s, order))
  {
    hide Owners, BodiesRun, Records, CallTimers, QueueRipe, HandsRipe, BodiesRipe, SlotsPlain, Finished;
    FiredRipe(s, order);
    LeftTimers(s, order);
  }

  /** The running fiber's record changes, its blocking call and its callback excepted. */
  lemma SelfCalls(s: State, w: WorkerId, x: Fiber)
    requires CallInv(s) && Runs(s, w) && x.io == Self(s, w).io
    requires x.body == Self(s, w).body || x.body == None
    requires SysBody(x) ==> x.state == Exec && !x.armed
    ensures CallInv(SetFiber(s, Current(s, w), x))
  {
    hide Records, CallTimers, QueueRipe, SlotsPlain, Finished;
  }

  lemma LeaveCalls(s: State, w: WorkerId, state: FiberState)
    requires CallInv(s) && Runs(s, w) && (Self(s, w).armed || Self(s, w).Free())
    ensures CallInv(Leave(s, w, state))
  {
    hide Records, CallTimers, QueueRipe, SlotsPlain, Finished;
  }

  lemma AddTimerCalls(s: State, ms: nat, recurring: bool, cb: Callback)
    requires CallInv(s) && !cb.Timeout?
    ensures CallInv(AddTimer(s, ms, recurring, cb))
  {
    hide Owners, BodiesRun, QueueRipe, HandsRipe, BodiesRipe, SlotsPlain, Finished;
  }

  lemma DropTimerCalls(s: State, id: Option<nat>)
    requires CallInv(s)
    ensures CallInv(DropTimer(s, id))
  {
    hide Owners, BodiesRun, Records, QueueRipe, HandsRipe, BodiesRipe, SlotsPlain, Finished;
  }

  lemma SpawnCalls(s: State, f: FiberId)
    requires CallInv(s) && f !in s.fibers
    ensures CallInv(SetFiber(s, f, Fiber(Init, false, None, None)))
  {
    hide Records, CallTimers, QueueRipe, HandsRipe, SlotsPlain, Finished;
  }

  lemma ActCalls(s: State, action: Action)
    requires CallInv(s) && CanAct(s, action)
    ensures CallInv(ActStep(s, action))
  {
    hide CallInv, Trigger, TriggerBoth, AddTimer, DropTimer;
    match action
    case Spawn(f, thread) => SpawnCalls(s, f); PushCalls(SetFiber(s, f, Fiber(Init, false, None, None)), FiberWork(f), thread);
    case Submit(f, thread) => PushCalls(s, FiberWork(f), thread);
    case Call(tag, thread) => PushCalls(s, CallWork(User(tag)), thread);
    case OnEvent(k, tag, _) => SlotPutCalls(s, k, CallWork(User(tag)));
    case DelEvent(k, _) => SlotDropCalls(s, k);
    case CancelEvent(k, _) => TriggerCalls(s, k);
    case CancelAll(fd, _) => TriggerBothCalls(s, fd, {Read, Write});
    case StartTimer(ms, tag, recurring) => AddTimerCalls(s, ms, recurring, User(tag));
    case StopTimer(id) => DropTimerCalls(s, Some(id));
    case RequestStop => StopCalls(s);
  }

  lemma StopCalls(s: State)
    requires CallInv(s)
    ensures CallInv(s.(stopRequested := true))
  {}

  // ----- the blocking call itself -----

  lemma IoBeginCalls(s: State, w: WorkerId, k: Slot, timeout: Option<nat>)
    requires CallInv(s) && RunsProgram(s, w)
    ensures CallInv(IoBeginStep(s, w, k, timeout))
  {
    hide Owners, BodiesRun, Records, CallTimers, QueueRipe, HandsRipe, BodiesRipe, SlotsPlain, Finished;
    var call := IoCall(k, timeout, s.now, None, None, Trying);
    NewCallTables(s, call);
    NewCallRipe(s, call);
    NewCallOwner(s, w, call);
  }

  lemma NewCallTables(s: State, call: IoCall)
    requires Records(s.calls, s.nextCall, s.nextTimer, s.now) && CallTimers(s.timers, s.calls, s.nextTimer, s.now)
    requires Finished(s.finished, s.calls, s.nextCall, s.now)
    requires call.begun == s.now && call.timer == None && call.timedOutAt == None
    ensures var calls := s.calls[s.nextCall := call];
            && Records(calls, s.nextCall + 1, s.nextTimer, s.now) && CallTimers(s.timers, calls, s.nextTimer, s.now)
            && Finished(s.finished, calls, s.nextCall + 1, s.now)
  {}

  lemma NewCallRipe(s: State, call: IoCall)
    requires QueueRipe(s.queue, s.calls, s.nextCall, s.now) && HandsRipe(s.workers, s.calls, s.nextCall, s.now)
    requires BodiesRipe(s.fibers, s.calls, s.nextCall, s.now)
    ensures var calls := s.calls[s.nextCall := call];
            && QueueRipe(s.queue, calls, s.nextCall + 1, s.now) && HandsRipe(s.workers, calls, s.nextCall + 1, s.now)
            && BodiesRipe(s.fibers, calls, s.nextCall + 1, s.now)
  {}

  lemma NewCallOwner(s: State, w: WorkerId, call: IoCall)
    requires Owners(s.fibers, s.calls) && BodiesRun(s.fibers, s.workers) && RunsProgram(s, w)
    requires Records(s.calls, s.nextCall, s.nextTimer, s.now)
    ensures var x := Self(s, w).(io := Some(s.nextCall));
            && Owners(s.fibers[Current(s, w) := x], s.calls[s.nextCall := call])
            && BodiesRun(s.fibers[Current(s, w) := x], s.workers)
            && (forall c, n, now :: BodiesRipe(s.fibers, c, n, now) ==> BodiesRipe(s.fibers[Current(s, w) := x], c, n, now))
  {}

  /** A record changes without disturbing its timer or its deadline. */
  lemma RecordCalls(s: State, c: CallId, call: IoCall)
    requires CallInv(s) && c in s.calls
    requires call.slot == s.calls[c].slot && call.timeout == s.calls[c].timeout && call.begun == s.calls[c].begun
    requires call.timer == s.calls[c].timer || (call.timer == None && s.calls[c].timer.Some? && s.calls[c].timer.value !in s.timers)
    requires call.stage == Trying ==> call.timer == None
    requires call.timedOutAt == s.calls[c].timedOutAt || (call.timedOutAt == Some(s.now) && Elapsed(call, s.now))
    ensures CallInv(s.(calls := s.calls[c := call]))
  {
    hide BodiesRun, SlotsPlain;
  }

  /** Pending lambdas only look at a call's beginning and timeout, and only while it lives. */
  lemma TableFrame(s: State, fs: map<FiberId, Fiber>, calls: CallTable)
    requires QueueRipe(s.queue, s.calls, s.nextCall, s.now) && HandsRipe(s.workers, s.calls, s.nextCall, s.now)
    requires BodiesRipe(fs, s.calls, s.nextCall, s.now)
    requires forall c :: c in calls ==>
               && c in s.calls && calls[c].begun == s.calls[c].begun
               && calls[c].timeout == s.calls[c].timeout && calls[c].slot == s.calls[c].slot
    ensures QueueRipe(s.queue, calls, s.nextCall, s.now) && HandsRipe(s.workers, calls, s.nextCall, s.now)
    ensures BodiesRipe(fs, calls, s.nextCall, s.now)
  {}

  lemma LeaveTable(s: State, f: FiberId, c: CallId)
    requires Owners(s.fibers, s.calls) && BodiesRun(s.fibers, s.workers) && f in s.fibers && s.fibers[f].io == Some(c)
    requires BodiesRipe(s.fibers, s.calls, s.nextCall, s.now)
    ensures Owners(s.fibers[f := s.fibers[f].(io := None)], s.calls - {c})
    ensures BodiesRun(s.fibers[f := s.fibers[f].(io := None)], s.workers)
    ensures BodiesRipe(s.fibers[f := s.fibers[f].(io := None)], s.calls, s.nextCall, s.now)
  {}

  lemma EndRecord(s: State, c: CallId, result: IoResult)
    requires Records(s.calls, s.nextCall, s.nextTimer, s.now) && CallTimers(s.timers, s.calls, s.nextTimer, s.now)
    requires Finished(s.finished, s.calls, s.nextCall, s.now)
    requires c in s.calls && (result == TimedOut ==> s.calls[c].timedOutAt.Some?)
    ensures
      var s1 := DropTimer(s, s.calls[c].timer);
      && Records(s.calls - {c}, s.nextCall, s.nextTimer, s.now)
      && CallTimers(s1.timers, s.calls - {c}, s.nextTimer, s.now)
      && Finished(s.finished + [IoReturn(c, s.calls[c], s.now, result)], s.calls - {c}, s.nextCall, s.now)
  {
    hide Records, CallTimers, Finished;
    EndTables(s, c);
    EndFinished(s, c, result);
  }

  lemma EndTables(s: State, c: CallId)
    requires Records(s.calls, s.nextCall, s.nextTimer, s.now) && CallTimers(s.timers, s.calls, s.nextTimer, s.now)
    requires c in s.calls
    ensures Records(s.calls - {c}, s.nextCall, s.nextTimer, s.now)
    ensures CallTimers(DropTimer(s, s.calls[c].timer).timers, s.calls - {c}, s.nextTimer, s.now)
  {}

  lemma EndFinished(s: State, c: CallId, result: IoResult)
    requires Records(s.calls, s.nextCall, s.nextTimer, s.now) && Finished(s.finished, s.calls, s.nextCall, s.now)
    requires c in s.calls && (result == TimedOut ==> s.calls[c].timedOutAt.Some?)
    ensures Finished(s.finished + [IoReturn(c, s.calls[c], s.now, result)], s.calls - {c}, s.nextCall, s.now)
  {}

  lemma IoReturnCalls(s: State, w: WorkerId, result: IoResult)
    requires CallInv(s) && Runs(s, w) && Self(s, w).io.Some? && Self(s, w).io.value in s.calls
    requires result == TimedOut ==> s.calls[Self(s, w).io.value].timedOutAt.Some?
    ensures CallInv(IoReturnStep(s, w, result))
  {
    hide Owners, BodiesRun, Records, CallTimers, QueueRipe, HandsRipe, BodiesRipe, SlotsPlain, Finished;
    var c, f := Self(s, w).io.value, Current(s, w);
    LeaveTable(s, f, c);
    EndRecord(s, c, result);
    TableFrame(s, s.fibers[f := s.fibers[f].(io := None)], s.calls - {c});
  }

  lemma StartRecord(s: State, c: CallId)
    requires Records(s.calls, s.nextCall, s.nextTimer, s.now) && CallTimers(s.timers, s.calls, s.nextTimer, s.now)
    requires c in s.calls && s.calls[c].stage == Trying && s.calls[c].timeout.Some?
    ensures
      var call := s.calls[c].(timer := Some(s.nextTimer), stage := TimerSet);
      var s1 := AddTimer(s, call.timeout.value, false, Timeout(c, call.slot));
      && Records(s.calls[c := call], s.nextCall, s1.nextTimer, s.now)
      && CallTimers(s1.timers, s.calls[c := call], s1.nextTimer, s.now)
  {}

  lemma OwnersKeep(fs: map<FiberId, Fiber>, calls: CallTable, c: CallId, call: IoCall)
    requires Owners(fs, calls) && c in calls
    ensures Owners(fs, calls[c := call])
  {}

  lemma FinishedKeep(s: State, c: CallId, call: IoCall)
    requires Finished(s.finished, s.calls, s.nextCall, s.now) && c in s.calls
    ensures Finished(s.finished, s.calls[c := call], s.nextCall, s.now)
  {}

  lemma IoTimerCalls(s: State, w: WorkerId)
    requires CallInv(s) && RunsIo(s, w, Trying)
    ensures CallInv(IoTimerStep(s, w))
  {
    hide Owners, BodiesRun, Records, CallTimers, QueueRipe, HandsRipe, BodiesRipe, SlotsPlain, Finished;
    var c := Self(s, w).io.value;
    var call := s.calls[c];
    if call.timeout.Some? {
      StartRecord(s, c);
      var call' := call.(timer := Some(s.nextTimer), stage := TimerSet);
      OwnersKeep(s.fibers, s.calls, c, call');
      FinishedKeep(s, c, call');
      TableFrame(s, s.fibers, s.calls[c := call']);
    } else {
      TryingNoTimer(s, c);
      RecordCalls(s, c, call.(timer := None, stage := TimerSet));
    }
  }

  lemma TryingNoTimer(s: State, c: CallId)
    requires Records(s.calls, s.nextCall, s.nextTimer, s.now) && c in s.calls && s.calls[c].stage == Trying
    ensures s.calls[c].timer == None
  {}

  lemma IoAddCalls(s: State, w: WorkerId, ok: bool)
    requires CallInv(s) && RunsIo(s, w, TimerSet)
    ensures CallInv(IoAddStep(s, w, ok))
  {
    hide CallInv, IoReturnStep;
    if ok {
      SelfNotSys(s, w);
      var c := Self(s, w).io.value;
      SelfCalls(s, w, Self(s, w).(armed := true));
      var s1 := Arm(s, w);
      SlotPutCalls(s1, s.calls[c].slot, FiberWork(Current(s, w)));
      var s2 := s1.(slots := s.slots[s.calls[c].slot := FiberWork(Current(s, w))]);
      RecordCalls(s2, c, s.calls[c].(stage := Parked));
    } else {
      IoReturnCalls(s, w, AddFailed);
    }
  }

  lemma SelfNotSys(s: State, w: WorkerId)
    requires CallInv(s) && Runs(s, w) && (Self(s, w).io.Some? || Self(s, w).armed)
    ensures !SysBody(Self(s, w))
  {}

  lemma IoWakeCalls(s: State, w: WorkerId)
    requires CallInv(s) && RunsIo(s, w, Parked)
    ensures CallInv(IoWakeStep(s, w))
  {
    hide CallInv, IoReturnStep;
    var c := Self(s, w).io.value;
    if s.calls[c].timedOutAt.Some? {
      IoReturnCalls(s, w, TimedOut);
    } else {
      DropTimerCalls(s, s.calls[c].timer);
      RecordCalls(DropTimer(s, s.calls[c].timer), c, s.calls[c].(timer := None, stage := Trying));
    }
  }

  lemma RunTimeoutCalls(s: State, w: WorkerId, ok: bool)
    requires CallInv(s) && RunsBody(s, w) && Self(s, w).body.value.Timeout?
    ensures CallInv(RunTimeoutStep(s, w, ok))
  {
    hide CallInv, Trigger;
    var c, k, s1 := Self(s, w).body.value.call, Self(s, w).body.value.slot, ClearBody(s, w);
    SelfCalls(s, w, Self(s, w).(body := None));
    if c in s.calls && s.calls[c].timedOutAt == None {
      BodyElapsed(s, w);
      var call := s.calls[c].(timedOutAt := Some(s.now));
      RecordCalls(s1, c, call);
      TriggerCalls(s1.(calls := s.calls[c := call]), k);
    }
  }

  lemma BodyElapsed(s: State, w: WorkerId)
    requires CallInv(s) && RunsBody(s, w) && Self(s, w).body.value.Timeout?
    requires Self(s, w).body.value.call in s.calls
    ensures Elapsed(s.calls[Self(s, w).body.value.call], s.now)
    ensures s.calls[Self(s, w).body.value.call].stage == Trying ==> s.calls[Self(s, w).body.value.call].timer == None
  {}

  lemma RunResumeCalls(s: State, w: WorkerId)
    requires CallInv(s) && RunsBody(s, w) && Self(s, w).body.value.Resume?
    ensures CallInv(RunResumeStep(s, w))
  {
    hide CallInv;
    SelfCalls(s, w, Self(s, w).(body := None));
    PushCalls(ClearBody(s, w), FiberWork(Self(s, w).body.value.fiber), None);
  }
}
