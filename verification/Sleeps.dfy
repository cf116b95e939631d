/** The sleep hooks: a sleeping fiber's timer stays until it is due. And the waking end of a timeout:
    when its lambda wakes the fiber that waits, and what a marked call returns. */
module Sleeps {
  import opened Wrappers
  import opened Tasks
  import opened Runtime
  import opened Tickets
  import opened TicketSteps
  import opened Calls
  import opened Safety
  import Guarantees
  import Timeouts

  /** Timer `id` is as it was, or it was due. */
  predicate KeptOrDue(s: State, timers: map<nat, TimerEntry>, id: nat)
    requires id in s.timers
  {
    (id in timers && timers[id] == s.timers[id]) || Due(s, id)
  }

  lemma ExpireKeepsTimer(s: State, order: seq<nat>, id: nat)
    requires ExpiryOrder(s, order) && id in s.timers
    ensures KeptOrDue(s, ExpireStep(s, order).timers, id)
  {}

  lemma WorkKeepsTimer(s: State, w: WorkerId, step: WorkerStep, id: nat)
    requires CanWork(s, w, step) && id in s.timers
    ensures KeptOrDue(s, WorkStep(s, w, step).timers, id)
  {
    hide TriggerBoth, ExpiryOrder, Stopping, ScanStep, DispatchStep, PostRunStep, ExpireStep;
    match step
    case IdleReady(fd, events, _) => TriggerBothFrame(s, fd, events);
    case IdleExpire(order) => OrderKnown(s, order); ExpireKeepsTimer(s, order, id);
    case Scan => ScanTimers(s, w);
    case Dispatch(spare) => DispatchTimers(s, w, spare);
    case PostRun => PostRunTimers(s, w);
    case _ =>
  }

  lemma ScanTimers(s: State, w: WorkerId)
    requires w < |s.workers|
    ensures ScanStep(s, w).timers == s.timers
  {
    hide RemoveAt, FirstEligible, ExecIds;
  }

  lemma DispatchTimers(s: State, w: WorkerId, spare: FiberId)
    requires CanDispatch(s, w, spare)
    ensures DispatchStep(s, w, spare).timers == s.timers
  {}

  lemma PostRunTimers(s: State, w: WorkerId)
    requires CanPostRun(s, w)
    ensures PostRunStep(s, w).timers == s.timers
  {
    hide Settled;
  }

  /** A blocking call only drops a timer with its own lambda. */
  lemma CallTimerIsLambda(s: State, c: CallId, id: nat)
    requires CallInv(s) && c in s.calls && s.calls[c].timer == Some(id) && id in s.timers
    ensures s.timers[id].cb.Timeout?
  {
    hide Owners, BodiesRun, Records, QueueRipe, HandsRipe, BodiesRipe, SlotsPlain, Finished;
  }

  lemma IoKeepsTimer(s: State, w: WorkerId, step: FiberStep, id: nat)
    requires CallInv(s) && TimersOnce(s.timers, s.nextTimer) && id in s.timers && s.timers[id].cb.Resume?
    requires CanRun(s, w, step) && (step.IoDone? || step.IoTimer? || step.IoAdd? || step.IoWake?)
    ensures id in RunStep(s, w, step).timers && RunStep(s, w, step).timers[id] == s.timers[id]
  {
    hide CallInv;
    var c := Self(s, w).io.value;
    if s.calls[c].timer == Some(id) {
      CallTimerIsLambda(s, c, id);
    }
  }

  lemma RunKeepsTimer(s: State, w: WorkerId, step: FiberStep, id: nat)
    requires CallInv(s) && TimersOnce(s.timers, s.nextTimer) && id in s.timers && s.timers[id].cb.Resume?
    requires CanRun(s, w, step)
    ensures id in RunStep(s, w, step).timers && RunStep(s, w, step).timers[id] == s.timers[id]
  {
    hide CallInv, Trigger, IoReturnStep, IoTimerStep, IoAddStep, IoWakeStep;
    match step {
      case RunTimeout(_) =>
        var c, k := Self(s, w).body.value.call, Self(s, w).body.value.slot;
        if c in s.calls {
          TriggerFrame(ClearBody(s, w).(calls := s.calls[c := s.calls[c].(timedOutAt := Some(s.now))]), k);
        }
      case IoDone => IoKeepsTimer(s, w, step, id);
      case IoTimer => IoKeepsTimer(s, w, step, id);
      case IoAdd(_) => IoKeepsTimer(s, w, step, id);
      case IoWake => IoKeepsTimer(s, w, step, id);
      case _ =>
    }
  }

  lemma ActKeepsTimer(s: State, action: Action, id: nat)
    requires TimersOnce(s.timers, s.nextTimer) && id in s.timers && s.timers[id].cb.Resume? && CanAct(s, action)
    ensures id in ActStep(s, action).timers && ActStep(s, action).timers[id] == s.timers[id]
  {
    hide Trigger, TriggerBoth, NoTicket, NotOnCpu, NotCbFiber;
    if action.CancelEvent? {
      TriggerFrame(s, action.slot);
    } else if action.CancelAll? {
      TriggerBothFrame(s, action.fd, {Read, Write});
    }
  }

  lemma StepKeepsTimer(s: State, step: Step, id: nat)
    requires Inv(s) && Enabled(s, step) && id in s.timers && s.timers[id].cb.Resume?
    ensures KeptOrDue(s, Next(s, step).timers, id) && s.now <= Next(s, step).now
  {
    hide AllTickets, Unique, Cpu, CallInv, CountActive, CanWork, WorkStep, CanRun, RunStep, CanAct, ActStep;
    ClockKeeps(s, step);
    match step
    case Tick(_) =>
    case OnWorker(w, work) => WorkKeepsTimer(s, w, work, id);
    case InFiber(w, act) => RunKeepsTimer(s, w, act, id);
    case Program(_, action) => ActKeepsTimer(s, action, id);
  }

  lemma WorkClock(s: State, w: WorkerId, step: WorkerStep)
    requires CanWork(s, w, step)
    ensures WorkStep(s, w, step).now == s.now
  {
    hide ExpiryOrder, Stopping, RemoveAt, FirstEligible, ExecIds, Settled, TriggerBoth, DispatchStep;
    match step
    case IdleReady(fd, events, _) => TriggerBothFrame(s, fd, events);
    case Dispatch(spare) => DispatchClock(s, w, spare);
    case _ =>
  }

  lemma DispatchClock(s: State, w: WorkerId, spare: FiberId)
    requires CanDispatch(s, w, spare)
    ensures DispatchStep(s, w, spare).now == s.now
  {}

  lemma RunClock(s: State, w: WorkerId, step: FiberStep)
    requires CanRun(s, w, step)
    ensures RunStep(s, w, step).now == s.now
  {
    hide Trigger;
    if step.RunTimeout? {
      var c, k := Self(s, w).body.value.call, Self(s, w).body.value.slot;
      if c in s.calls {
        TriggerFrame(ClearBody(s, w).(calls := s.calls[c := s.calls[c].(timedOutAt := Some(s.now))]), k);
      }
    }
  }

  lemma ActClock(s: State, action: Action)
    requires CanAct(s, action)
    ensures ActStep(s, action).now == s.now
  {
    hide Trigger, TriggerBoth, NoTicket, NotOnCpu, NotCbFiber;
    if action.CancelEvent? {
      TriggerFrame(s, action.slot);
    } else if action.CancelAll? {
      TriggerBothFrame(s, action.fd, {Read, Write});
    }
  }

  lemma ClockKeeps(s: State, step: Step)
    requires Enabled(s, step)
    ensures s.now <= Next(s, step).now
  {
    hide CanWork, WorkStep, CanRun, RunStep, CanAct, ActStep;
    match step
    case Tick(_) =>
    case OnWorker(w, work) => WorkClock(s, w, work);
    case InFiber(w, act) => RunClock(s, w, act);
    case Program(_, action) => ActClock(s, action);
  }

  /** Over any run, the timer of a sleeping fiber is untouched until the clock has reached its
      deadline: nothing wakes a sleeper early. */
  lemma {:induction false} SleepNotEarly(s: State, run: seq<Step>, id: nat)
    requires Inv(s) && Legal(s, run) && id in s.timers && s.timers[id].cb.Resume?
    ensures var t := After(s, run);
            s.now <= t.now && ((id in t.timers && t.timers[id] == s.timers[id]) || s.timers[id].next <= t.now)
    decreases |run|
  {
    hide Inv, Enabled, Next;
    if run != [] {
      NextKeeps(s, run[0]);
      StepKeepsTimer(s, run[0], id);
      if id in Next(s, run[0]).timers && Next(s, run[0]).timers[id] == s.timers[id] {
        SleepNotEarly(Next(s, run[0]), run[1..], id);
      } else {
        ClockOverRun(Next(s, run[0]), run[1..]);
      }
    }
  }

  lemma {:induction false} ClockOverRun(s: State, run: seq<Step>)
    requires Legal(s, run)
    ensures s.now <= After(s, run).now
    decreases |run|
  {
    hide Enabled, Next;
    if run != [] {
      ClockKeeps(s, run[0]);
      ClockOverRun(Next(s, run[0]), run[1..]);
    }
  }

  lemma SleepStarts(s: State, w: WorkerId, ms: nat)
    requires CanRun(s, w, Sleep(ms))
    ensures var t := RunStep(s, w, Sleep(ms)).timers;
            s.nextTimer in t && t[s.nextTimer] == TimerEntry(Deadline(s.now, ms), ms, false, Resume(Current(s, w)))
  {}

  /** A fiber that sleeps has its one wake-up in the timer it set, on every run, until the clock reaches
      the deadline computed when it went to sleep. */
  lemma SleepLasts(s: State, w: WorkerId, ms: nat, run: seq<Step>)
    requires Inv(s) && CanRun(s, w, Sleep(ms)) && Legal(Next(s, InFiber(w, Sleep(ms))), run)
    ensures var t := After(Next(s, InFiber(w, Sleep(ms))), run);
            t.now < Deadline(s.now, ms) ==> TicketAt(t, Current(s, w), InTimer(s.nextTimer))
  {
    hide Inv, RunStep, Legal, After, CanRun;
    SleepStarts(s, w, ms);
    NextKeeps(s, InFiber(w, Sleep(ms)));
    SleepNotEarly(Next(s, InFiber(w, Sleep(ms))), run, s.nextTimer);
  }

  // ----- the waking end of a timeout -----

  /** The lambda finds its call alive and not yet marked, and the fiber in the slot it cancels. */
  predicate Wakes(s: State, c: CallId, k: Slot, ok: bool, f: FiberId) {
    c in s.calls && s.calls[c].timedOutAt == None && ok && k in s.slots && s.slots[k] == FiberWork(f)
  }

  lemma TimeoutEffect(s: State, w: WorkerId, ok: bool, c: CallId, k: Slot, f: FiberId)
    requires RunsBody(s, w) && Self(s, w).body == Some(Timeout(c, k)) && SlotsPlain(s.slots)
    ensures
      var t := RunTimeoutStep(s, w, ok);
      && (TicketAt(t, f, Queued(|s.queue|)) <==> Wakes(s, c, k, ok, f))
      && (!Wakes(s, c, k, ok, f) ==> forall at :: TicketAt(t, f, at) <==> TicketAt(s, f, at))
      && (c in s.calls ==> c in t.calls && t.calls[c].timedOutAt.Some?)
  {
    var t, c, k := RunTimeoutStep(s, w, ok), Self(s, w).body.value.call, Self(s, w).body.value.slot;
    if c in s.calls && s.calls[c].timedOutAt == None && ok && k in s.slots {
      assert t.queue == s.queue + [Task(s.slots[k], None)] && t.slots == s.slots - {k};
    } else {
      assert t.queue == s.queue && t.slots == s.slots;
    }
    assert t.fibers == s.fibers[Current(s, w) := Self(s, w).(body := None)] && t.timers == s.timers && t.workers == s.workers;
  }

  /** What a timeout lambda does to a waiting fiber, in every reachable state: it marks its call if that is
      alive, and it wakes the fiber if and only if the call is unmarked, epoll_ctl accepts, and the slot
      already holds the fiber. Then the queue entry is the fiber's only wake-up; otherwise nothing about
      the fiber changes. */
  lemma TimeoutWakes(s: State, w: WorkerId, ok: bool, c: CallId, k: Slot, f: FiberId)
    requires Reachable(s) && CanRun(s, w, RunTimeout(ok)) && Self(s, w).body == Some(Timeout(c, k))
    ensures
      var t := Next(s, InFiber(w, RunTimeout(ok)));
      && (c in s.calls ==> k == s.calls[c].slot && c in t.calls && t.calls[c].timedOutAt.Some?)
      && (TicketAt(t, f, Queued(|s.queue|)) <==> Wakes(s, c, k, ok, f))
      && (forall at :: TicketAt(t, f, at) <==> if Wakes(s, c, k, ok, f) then at == Queued(|s.queue|) else TicketAt(s, f, at))
  {
    hide Reachable, RunTimeoutStep, TicketInv, CountActive, Owners, BodiesRun, Records, CallTimers, QueueRipe, HandsRipe, SlotsPlain,
      Finished, Wakes;
    ReachableInv(s);
    var t := Next(s, InFiber(w, RunTimeout(ok)));
    TimeoutEffect(s, w, ok, c, k, f);
    ReachableNext(s, InFiber(w, RunTimeout(ok)));
    if Wakes(s, c, k, ok, f) {
      forall at | TicketAt(t, f, at) ensures at == Queued(|s.queue|) {
        Guarantees.AtMostOneTicket(t, f, at, Queued(|s.queue|));
      }
    }
  }

  /** The call is parked and its timer lambda has run. */
  predicate Stamped(s: State, c: CallId) {
    c in s.calls && s.calls[c].stage == Parked && s.calls[c].timedOutAt.Some?
  }

  ghost predicate TimesOut(s: State, finished: seq<IoReturn>, c: CallId)
    requires c in s.calls
  {
    exists r :: r in finished && r.id == c && r.call == s.calls[c] && r.result == TimedOut
  }

  lemma InsideStamped(s: State, w: WorkerId, step: FiberStep, c: CallId)
    requires CanRun(s, w, step) && Stamped(s, c) && c < s.nextCall
    ensures var t := RunStep(s, w, step);
            (Stamped(t, c) && t.calls[c] == s.calls[c]) || TimesOut(s, t.finished, c)
  {
    hide Trigger;
    match step {
      case RunTimeout(_) =>
        var o, k := Self(s, w).body.value.call, Self(s, w).body.value.slot;
        if o in s.calls {
          TriggerFrame(ClearBody(s, w).(calls := s.calls[o := s.calls[o].(timedOutAt := Some(s.now))]), k);
        }
      case IoWake =>
        if Self(s, w).io.value == c {
          var r := IoReturn(c, s.calls[c], s.now, TimedOut);
          assert RunStep(s, w, step).finished == s.finished + [r];
        }
      case _ =>
    }
  }

  lemma StampedStep(s: State, step: Step, c: CallId)
    requires Inv(s) && Enabled(s, step) && Stamped(s, c)
    ensures var t := Next(s, step);
            (Stamped(t, c) && t.calls[c] == s.calls[c]) || TimesOut(s, t.finished, c)
  {
    hide TicketInv, CallInv, CountActive, CanWork, WorkStep, CanRun, RunStep, CanAct, ActStep;
    Timeouts.LiveBelow(s, c);
    match step
    case Tick(_) =>
    case OnWorker(w, work) => Timeouts.WorkSameCalls(s, w, work);
    case InFiber(w, act) => InsideStamped(s, w, act, c);
    case Program(_, action) => Timeouts.ActSameCalls(s, action);
  }

  lemma InsideFinished(s: State, w: WorkerId, step: FiberStep)
    requires CanRun(s, w, step)
    ensures s.finished <= RunStep(s, w, step).finished
  {
    hide Trigger;
    if step.RunTimeout? {
      var c, k := Self(s, w).body.value.call, Self(s, w).body.value.slot;
      if c in s.calls {
        TriggerFrame(ClearBody(s, w).(calls := s.calls[c := s.calls[c].(timedOutAt := Some(s.now))]), k);
      }
    }
  }

  lemma FinishedStays(s: State, step: Step)
    requires Enabled(s, step)
    ensures s.finished <= Next(s, step).finished
  {
    hide CanWork, WorkStep, CanRun, RunStep, CanAct, ActStep;
    match step
    case Tick(_) =>
    case OnWorker(w, work) => Timeouts.WorkSameCalls(s, w, work);
    case InFiber(w, act) => InsideFinished(s, w, act);
    case Program(_, action) => Timeouts.ActSameCalls(s, action);
  }

  lemma {:induction false} FinishedOverRun(s: State, run: seq<Step>)
    requires Legal(s, run)
    ensures s.finished <= After(s, run).finished
    decreases |run|
  {
    hide Enabled, Next;
    if run != [] {
      FinishedStays(s, run[0]);
      FinishedOverRun(Next(s, run[0]), run[1..]);
    }
  }

  /** Main result: over any run from a reachable state, a parked call whose timer lambda has run stays
      as it is until it is woken, and then it has returned ETIMEDOUT: it neither retries nor completes. */
  lemma StampedTimesOut(s: State, run: seq<Step>, c: CallId)
    requires Reachable(s) && Legal(s, run) && Stamped(s, c)
    ensures var t := After(s, run);
            (Stamped(t, c) && t.calls[c] == s.calls[c]) || TimesOut(s, t.finished, c)
  {
    hide Reachable, Inv, Legal, After, Stamped, TimesOut;
    ReachableInv(s);
    StampedFrom(s, run, c);
  }

  lemma {:induction false} StampedFrom(s: State, run: seq<Step>, c: CallId)
    requires Inv(s) && Legal(s, run) && Stamped(s, c)
    ensures var t := After(s, run);
            (Stamped(t, c) && t.calls[c] == s.calls[c]) || TimesOut(s, t.finished, c)
    decreases |run|
  {
    hide Inv, Enabled, Next;
    if run != [] {
      var n := Next(s, run[0]);
      StampedStep(s, run[0], c);
      NextKeeps(s, run[0]);
      if Stamped(n, c) && n.calls[c] == s.calls[c] {
        StampedFrom(n, run[1..], c);
      } else {
        FinishedOverRun(n, run[1..]);
      }
    }
  }
}
