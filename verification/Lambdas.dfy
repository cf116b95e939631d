/** The lambda of a blocking call is pending somewhere from the moment its timer is set until it has run:
    no step drops it. */
module Lambdas {
  import opened Wrappers
  import opened Tasks
  import opened Runtime
  import opened Tickets
  import opened TicketSteps
  import opened Calls
  import opened Safety
  import Guarantees
  import Timeouts

  // ----- the lambda of a call is never dropped -----

  /** The callback is pending at this place. */
  predicate CbAt(s: State, cb: Callback, at: Place) {
    match at
    case Queued(i) => i < |s.queue| && s.queue[i].work == CallWork(cb)
    case InSlot(k) => k in s.slots && s.slots[k] == CallWork(cb)
    case InTimer(id) => id in s.timers && s.timers[id].cb == cb
    case InHand(w) => w < |s.workers| && s.workers[w].pc.Holding? && s.workers[w].pc.task.work == CallWork(cb)
    case InBody(g) => g in s.fibers && s.fibers[g].body == Some(cb)
  }

  ghost predicate CbPending(s: State, cb: Callback) {
    exists at :: CbAt(s, cb, at)
  }

  lemma NotInSlot(s: State, cb: Callback, at: Place)
    requires CallInv(s) && CbAt(s, cb, at) && cb.Timeout?
    ensures !at.InSlot?
  {}

  lemma ScanStays(s: State, w: WorkerId, cb: Callback, at: Place) returns (to: Place)
    requires CbAt(s, cb, at) && !at.InSlot? && w < |s.workers| && s.workers[w].pc.Scanning?
    ensures CbAt(ScanStep(s, w), cb, to)
  {
    hide FirstEligible, ExecIds;
    var k := FirstEligible(s.queue, w, ExecIds(s));
    to := if !at.Queued? || k >= |s.queue| || at.index < k then at
          else if at.index == k then InHand(w) else Queued(at.index - 1);
    var q := ScanStep(s, w).queue;
    if at.Queued? && k < |s.queue| && at.index > k {
      assert q[at.index - 1] == s.queue[at.index];
    }
  }

  lemma DispatchFiberStays(s: State, w: WorkerId, spare: FiberId, cb: Callback, at: Place)
    requires CbAt(s, cb, at) && CanDispatch(s, w, spare) && s.workers[w].pc.task.work.FiberWork?
    ensures CbAt(DispatchStep(s, w, spare), cb, at)
  {
    var f, t := s.workers[w].pc.task.work.fiber, DispatchStep(s, w, spare);
    assert t.queue == s.queue && t.timers == s.timers && t.slots == s.slots;
    assert t.fibers == s.fibers || t.fibers == s.fibers[f := s.fibers[f].(state := Exec)];
    assert t.workers == s.workers[w := t.workers[w]];
  }

  lemma DispatchCallStays(s: State, w: WorkerId, spare: FiberId, cb: Callback, at: Place) returns (to: Place)
    requires CbAt(s, cb, at) && CanDispatch(s, w, spare) && s.workers[w].pc.task.work.CallWork?
    requires s.workers[w].cbFiber.Some? ==>
               s.workers[w].cbFiber.value in s.fibers && s.fibers[s.workers[w].cbFiber.value].body == None
    ensures CbAt(DispatchStep(s, w, spare), cb, to)
  {
    to := if at == InHand(w) then InBody(DispatchStep(s, w, spare).workers[w].pc.fiber) else at;
  }

  lemma CbFiberFresh(s: State, w: WorkerId, spare: FiberId)
    requires TicketInv(s) && CanDispatch(s, w, spare) && s.workers[w].pc.task.work.CallWork? && s.workers[w].cbFiber.Some?
    ensures s.workers[w].cbFiber.value in s.fibers
    ensures s.fibers[s.workers[w].cbFiber.value] == Fiber(Init, false, None, None)
  {
    hide TicketInv;
    CbFiberIdle(s, w, spare);
  }

  lemma DispatchStays(s: State, w: WorkerId, spare: FiberId, cb: Callback, at: Place) returns (to: Place)
    requires TicketInv(s) && CbAt(s, cb, at) && CanDispatch(s, w, spare)
    ensures CbAt(DispatchStep(s, w, spare), cb, to)
  {
    hide TicketInv, CbAt;
    if s.workers[w].pc.task.work.FiberWork? {
      DispatchFiberStays(s, w, spare, cb, at);
      to := at;
    } else {
      if s.workers[w].cbFiber.Some? {
        CbFiberFresh(s, w, spare);
      }
      to := DispatchCallStays(s, w, spare, cb, at);
    }
  }

  lemma PostRunStays(s: State, w: WorkerId, cb: Callback, at: Place)
    requires CallInv(s) && CbAt(s, cb, at) && !at.InSlot? && cb.Timeout? && CanPostRun(s, w)
    ensures CbAt(PostRunStep(s, w), cb, at)
  {
    hide Owners, Records, CallTimers, QueueRipe, HandsRipe, BodiesRipe, SlotsPlain, Finished;
  }

  lemma ExpireStays(s: State, order: seq<nat>, cb: Callback, at: Place) returns (to: Place)
    requires CbAt(s, cb, at) && !at.InSlot? && ExpiryOrder(s, order)
    ensures CbAt(ExpireStep(s, order), cb, to)
  {
    to := at;
    if at.InTimer? && at.id in order {
      var j :| 0 <= j < |order| && order[j] == at.id;
      to := Queued(|s.queue| + j);
    }
  }

  lemma WorkStays(s: State, w: WorkerId, step: WorkerStep, cb: Callback, at: Place) returns (to: Place)
    requires TicketInv(s) && CallInv(s) && CanWork(s, w, step) && CbAt(s, cb, at) && cb.Timeout?
    ensures CbAt(WorkStep(s, w, step), cb, to)
  {
    hide TicketInv, CallInv, ExpiryOrder, Stopping, ScanStep, DispatchStep, PostRunStep, ExpireStep, TriggerBoth;
    NotInSlot(s, cb, at);
    to := at;
    match step {
      case Scan => to := ScanStays(s, w, cb, at);
      case Dispatch(spare) => to := DispatchStays(s, w, spare, cb, at);
      case PostRun => PostRunStays(s, w, cb, at);
      case IdleExpire(order) => to := ExpireStays(s, order, cb, at);
      case IdleReady(fd, events, _) => TriggerBothFrame(s, fd, events);
      case _ =>
    }
  }

  lemma ActStays(s: State, action: Action, cb: Callback, at: Place)
    requires CbAt(s, cb, at) && !at.InSlot? && cb.Timeout? && CanAct(s, action) && TimersOnce(s.timers, s.nextTimer)
    ensures CbAt(ActStep(s, action), cb, at)
  {
    hide Trigger, TriggerBoth, NoTicket, NotOnCpu, NotCbFiber;
    if action.CancelEvent? {
      TriggerFrame(s, action.slot);
    } else if action.CancelAll? {
      TriggerBothFrame(s, action.fd, {Read, Write});
    }
  }

  /** The steps that take a lambda away: its own run, and the blocking call that drops its timer. */
  predicate Consumes(s: State, w: WorkerId, step: FiberStep, cb: Callback)
    requires Runs(s, w) && cb.Timeout?
  {
    || (step.RunTimeout? && Self(s, w).body == Some(cb))
    || ((step == IoDone || step == IoAdd(false) || step == IoWake) && Self(s, w).io == Some(cb.call))
  }

  /** The timer that a blocking call cancels carries its own lambda. */
  lemma OtherTimer(s: State, c: CallId, id: nat, cb: Callback)
    requires CallTimers(s.timers, s.calls, s.nextTimer, s.now) && c in s.calls
    requires id in s.timers && s.timers[id].cb == cb && cb.Timeout? && cb.call != c
    ensures s.calls[c].timer != Some(id)
  {}

  lemma TimerStays(s: State, w: WorkerId, step: FiberStep, id: nat)
    requires id in s.timers && id != s.nextTimer && CanRun(s, w, step)
    requires (step == IoDone || step == IoAdd(false) || step == IoWake) ==> s.calls[Self(s, w).io.value].timer != Some(id)
    ensures id in RunStep(s, w, step).timers && RunStep(s, w, step).timers[id] == s.timers[id]
  {
    hide Trigger;
    if step.RunTimeout? {
      var c, k := Self(s, w).body.value.call, Self(s, w).body.value.slot;
      if c in s.calls {
        TriggerFrame(ClearBody(s, w).(calls := s.calls[c := s.calls[c].(timedOutAt := Some(s.now))]), k);
      }
    }
  }

  /** A step inside a fiber changes no other fiber. */
  lemma OthersIn(s: State, w: WorkerId, step: FiberStep, f: FiberId)
    requires CanRun(s, w, step) && f != Current(s, w)
    ensures f in RunStep(s, w, step).fibers <==> f in s.fibers
    ensures f in s.fibers ==> RunStep(s, w, step).fibers[f] == s.fibers[f]
  {
    hide Trigger;
    if step.RunTimeout? {
      var c, k := Self(s, w).body.value.call, Self(s, w).body.value.slot;
      if c in s.calls {
        TriggerFrame(ClearBody(s, w).(calls := s.calls[c := s.calls[c].(timedOutAt := Some(s.now))]), k);
      }
    }
  }

  lemma ReturnFibers(s: State, w: WorkerId, result: IoResult)
    requires Runs(s, w) && Self(s, w).io.Some? && Self(s, w).io.value in s.calls
    ensures IoReturnStep(s, w, result).fibers == s.fibers[Current(s, w) := Self(s, w).(io := None)]
  {}

  lemma IoFibers(s: State, w: WorkerId, step: FiberStep)
    requires CanRun(s, w, step) && (step.IoTimer? || step.IoAdd? || step.IoWake?)
    ensures
      var t, f, x := RunStep(s, w, step), Current(s, w), Self(s, w);
      t.fibers == s.fibers || t.fibers == s.fibers[f := x.(armed := true)] || t.fibers == s.fibers[f := x.(io := None)]
  {
    hide IoReturnStep;
    ReturnFibers(s, w, AddFailed);
    ReturnFibers(s, w, TimedOut);
  }

  lemma LeaveBody(s: State, w: WorkerId, state: FiberState)
    requires Runs(s, w)
    ensures Leave(s, w, state).fibers == s.fibers[Current(s, w) := Self(s, w).(state := state, armed := false)]
  {}

  lemma OwnBodyStays(s: State, w: WorkerId, step: FiberStep)
    requires CanRun(s, w, step) && !step.RunTimeout? && !step.RunResume?
    ensures Current(s, w) in RunStep(s, w, step).fibers
    ensures RunStep(s, w, step).fibers[Current(s, w)].body == Self(s, w).body
  {
    hide Leave, IoReturnStep, IoTimerStep, IoAddStep, IoWakeStep;
    match step
    case IoTimer => IoFibers(s, w, step);
    case IoAdd(_) => IoFibers(s, w, step);
    case IoWake => IoFibers(s, w, step);
    case IoDone => ReturnFibers(s, w, Completed);
    case YieldReady => LeaveBody(s, w, Ready);
    case YieldHold => LeaveBody(s, w, Self(s, w).state);
    case Finish(threw) => LeaveBody(s, w, if threw then Except else Term);
    case _ =>
  }

  lemma BodyStays(s: State, w: WorkerId, step: FiberStep, g: FiberId)
    requires g in s.fibers && CanRun(s, w, step)
    requires g == Current(s, w) ==> !step.RunTimeout? && !step.RunResume?
    ensures g in RunStep(s, w, step).fibers && RunStep(s, w, step).fibers[g].body == s.fibers[g].body
  {
    hide RunStep;
    if g == Current(s, w) {
      OwnBodyStays(s, w, step);
    } else {
      OthersIn(s, w, step, g);
    }
  }

  lemma RunStays(s: State, w: WorkerId, step: FiberStep, cb: Callback, at: Place)
    requires TimersOnce(s.timers, s.nextTimer) && CallTimers(s.timers, s.calls, s.nextTimer, s.now)
    requires CbAt(s, cb, at) && !at.InSlot? && cb.Timeout? && CanRun(s, w, step) && !Consumes(s, w, step, cb)
    ensures CbAt(RunStep(s, w, step), cb, at)
  {
    hide CallTimers, RunStep;
    RunRecounts(s, w, step);
    match at
    case Queued(_) => Guarantees.RunQueue(s, w, step);
    case InHand(_) =>
    case InTimer(id) =>
      if step == IoDone || step == IoAdd(false) || step == IoWake {
        OtherTimer(s, Self(s, w).io.value, id, cb);
      }
      TimerStays(s, w, step, id);
    case InBody(g) => BodyStays(s, w, step, g);
  }

  /** No step but these loses a lambda. */
  lemma LambdaStays(s: State, step: Step, cb: Callback, at: Place) returns (to: Place)
    requires Inv(s) && Enabled(s, step) && CbAt(s, cb, at) && cb.Timeout?
    requires !(step.InFiber? && Runs(s, step.w) && Consumes(s, step.w, step.act, cb))
    ensures CbAt(Next(s, step), cb, to)
  {
    hide AllTickets, Unique, Cpu, Owners, BodiesRun, Records, CallTimers, QueueRipe, HandsRipe, BodiesRipe, Finished,
      CountActive, CanWork, WorkStep, CanRun, RunStep, CanAct, ActStep;
    NotInSlot(s, cb, at);
    to := at;
    match step {
      case Tick(_) =>
      case OnWorker(w, work) => to := WorkStays(s, w, work, cb, at);
      case InFiber(w, act) => RunsInside(s, w, act); RunStays(s, w, act, cb, at);
      case Program(_, action) => ActStays(s, action, cb, at);
    }
  }

  lemma RunsInside(s: State, w: WorkerId, step: FiberStep)
    requires CanRun(s, w, step)
    ensures Runs(s, w)
  {}

  // ----- a call that waits is watched by its lambda -----

  /** Once a call has set its timer and until it is marked, its lambda is pending. */
  ghost predicate Watched(s: State) {
    forall c :: Unmarked(s.calls, c) ==> CbPending(s, Timeout(c, s.calls[c].slot))
  }

  predicate Unmarked(calls: CallTable, c: CallId) {
    c in calls && calls[c].stage != Trying && calls[c].timeout.Some? && calls[c].timedOutAt == None
  }

  /** How a fiber's step changes the record of call `c`, which was there before. */
  predicate Moves(s: State, t: State, w: WorkerId, step: FiberStep, c: CallId)
    requires Runs(s, w) && c in s.calls && c in t.calls
  {
    var was, now := s.calls[c], t.calls[c];
    && now.slot == was.slot && now.timeout == was.timeout && (was.timedOutAt.Some? ==> now.timedOutAt == was.timedOutAt)
    && (was.stage == Trying && now.stage != Trying && now.timeout.Some? ==> CbAt(t, Timeout(c, now.slot), InTimer(s.nextTimer)))
    && (was.timedOutAt == None && Consumes(s, w, step, Timeout(c, was.slot)) ==> now.timedOutAt.Some? || now.stage == Trying)
  }

  lemma IoMoves(s: State, w: WorkerId, step: FiberStep, c: CallId)
    requires CanRun(s, w, step) && c in s.calls && c in RunStep(s, w, step).calls
    requires step.IoDone? || step.IoTimer? || step.IoAdd? || step.IoWake?
    ensures Moves(s, RunStep(s, w, step), w, step, c)
  {}

  lemma RecordMoves(s: State, w: WorkerId, step: FiberStep, c: CallId)
    requires CanRun(s, w, step) && Runs(s, w) && c in s.calls && c < s.nextCall && c in RunStep(s, w, step).calls
    ensures Moves(s, RunStep(s, w, step), w, step, c)
  {
    hide Trigger, IoReturnStep, IoTimerStep, IoAddStep, IoWakeStep;
    match step {
      case RunTimeout(_) =>
        var c, k := Self(s, w).body.value.call, Self(s, w).body.value.slot;
        if c in s.calls {
          TriggerFrame(ClearBody(s, w).(calls := s.calls[c := s.calls[c].(timedOutAt := Some(s.now))]), k);
        }
      case IoDone => IoMoves(s, w, step, c);
      case IoTimer => IoMoves(s, w, step, c);
      case IoAdd(_) => IoMoves(s, w, step, c);
      case IoWake => IoMoves(s, w, step, c);
      case _ =>
    }
  }

  lemma NewRecord(s: State, w: WorkerId, step: FiberStep, c: CallId)
    requires CanRun(s, w, step) && c !in s.calls && c in RunStep(s, w, step).calls
    ensures RunStep(s, w, step).calls[c].stage == Trying
  {
    hide Trigger;
    if step.RunTimeout? {
      var c, k := Self(s, w).body.value.call, Self(s, w).body.value.slot;
      if c in s.calls {
        TriggerFrame(ClearBody(s, w).(calls := s.calls[c := s.calls[c].(timedOutAt := Some(s.now))]), k);
      }
    }
  }

  lemma SameRecords(s: State, step: Step)
    requires Enabled(s, step) && !step.InFiber?
    ensures Next(s, step).calls == s.calls
  {
    hide CanWork, WorkStep, CanAct, ActStep;
    match step
    case Tick(_) =>
    case OnWorker(w, work) => Timeouts.WorkSameCalls(s, w, work);
    case Program(_, action) => Timeouts.ActSameCalls(s, action);
  }

  lemma WatchedCall(s: State, step: Step, c: CallId)
    requires Inv(s) && Watched(s) && Enabled(s, step)
    requires Unmarked(Next(s, step).calls, c)
    ensures CbPending(Next(s, step), Timeout(c, Next(s, step).calls[c].slot))
  {
    hide Inv, CanWork, WorkStep, CanRun, RunStep, CanAct, ActStep, Consumes, CbAt;
    var t, cb := Next(s, step), Timeout(c, Next(s, step).calls[c].slot);
    if step.InFiber? {
      RunsInside(s, step.w, step.act);
      if c !in s.calls {
        NewRecord(s, step.w, step.act, c);
      } else {
        CallKnown(s, c);
        RecordMoves(s, step.w, step.act, c);
      }
    } else {
      SameRecords(s, step);
    }
    if s.calls[c].stage == Trying {
      assert CbAt(t, cb, InTimer(s.nextTimer));
    } else {
      var at :| CbAt(s, cb, at);
      var to := LambdaStays(s, step, cb, at);
    }
  }

  lemma CallKnown(s: State, c: CallId)
    requires Inv(s) && c in s.calls
    ensures c < s.nextCall
  {
    hide TicketInv, CountActive;
  }

  lemma WatchedNext(s: State, step: Step)
    requires Inv(s) && Watched(s) && Enabled(s, step)
    ensures Watched(Next(s, step))
  {
    hide Inv, Enabled, Next, CbPending;
    forall c | Unmarked(Next(s, step).calls, c)
      ensures CbPending(Next(s, step), Timeout(c, Next(s, step).calls[c].slot))
    {
      WatchedCall(s, step, c);
    }
  }

  lemma {:induction false} WatchedOverRun(s: State, run: seq<Step>)
    requires Inv(s) && Watched(s) && Legal(s, run)
    ensures Watched(After(s, run))
    decreases |run|
  {
    hide Inv, Watched, Enabled, Next;
    if run != [] {
      NextKeeps(s, run[0]);
      WatchedNext(s, run[0]);
      WatchedOverRun(Next(s, run[0]), run[1..]);
    }
  }

  lemma ReachableWatched(s: State)
    requires Reachable(s)
    ensures Watched(s)
  {
    hide Inv, Legal, After;
    var n: nat, now: nat, run: seq<Step> :| Legal(Start(n, now), run) && After(Start(n, now), run) == s;
    StartInv(n, now);
    assert Watched(Start(n, now));
    WatchedOverRun(Start(n, now), run);
  }

  /** Main result: in every reachable state, the timeout of a call that has set its timer has been
      noticed, or the lambda that will notice it is in the call's own timer, in the queue, in a worker's
      hand, or about to run. */
  lemma TimeoutIsPending(s: State, c: CallId)
    requires Reachable(s) && c in s.calls && s.calls[c].stage != Trying && s.calls[c].timeout.Some?
    ensures s.calls[c].timedOutAt.Some?
            || exists at :: CbAt(s, Timeout(c, s.calls[c].slot), at) && !at.InSlot? && (at.InTimer? ==> s.calls[c].timer == Some(at.id))
  {
    hide Reachable, CbAt, TicketInv, CallInv, CountActive;
    ReachableInv(s);
    ReachableWatched(s);
    if s.calls[c].timedOutAt == None {
      var at :| CbAt(s, Timeout(c, s.calls[c].slot), at);
      NotInSlot(s, Timeout(c, s.calls[c].slot), at);
      if at.InTimer? {
        OwnTimerHolds(s, c, at);
      }
    }
  }

  lemma OwnTimerHolds(s: State, c: CallId, at: Place)
    requires CallInv(s) && c in s.calls && CbAt(s, Timeout(c, s.calls[c].slot), at) && at.InTimer?
    ensures s.calls[c].timer == Some(at.id)
  {
    hide Owners, BodiesRun, Records, QueueRipe, HandsRipe, BodiesRipe, SlotsPlain, Finished;
  }
}
