/** Threads that tasks are pinned to: a worker only ever takes what is its own or nobody's, and a fiber
    that is bound to a worker is next run there. */
module Pinning {
  import opened Wrappers
  import opened Tasks
  import opened Runtime
  import opened Tickets
  import opened Safety
  import opened Wakeups
  import Guarantees

  // ----- what a worker holds is its own -----

  ghost predicate HandsHome(ws: Workers) {
    forall w :: 0 <= w < |ws| && ws[w].pc.Holding? ==> ws[w].pc.task.thread == None || ws[w].pc.task.thread == Some(w)
  }

  lemma DispatchHolds(s: State, w: WorkerId, spare: FiberId)
    requires CanDispatch(s, w, spare)
    ensures var t := DispatchStep(s, w, spare); w < |t.workers| && !t.workers[w].pc.Holding?
  {
    match s.workers[w].pc.task.work
    case FiberWork(f) =>
      assert DispatchStep(s, w, spare).workers
             == s.workers[w := s.workers[w].(pc := if s.fibers[f].state in {Term, Except} then Scanning else Running(f, false))];
    case CallWork(_) =>
  }

  lemma PostRunHolds(s: State, w: WorkerId)
    requires CanPostRun(s, w)
    ensures var t := PostRunStep(s, w); w < |t.workers| && !t.workers[w].pc.Holding?
  {
    hide Settled;
    assert PostRunStep(s, w).workers == Settle(s, w).workers;
  }

  /** Only a scan puts a task into a hand. */
  lemma WorkHolds(s: State, w: WorkerId, step: WorkerStep)
    requires CanWork(s, w, step) && !step.Scan?
    ensures var t := WorkStep(s, w, step); w < |t.workers| && (t.workers[w].pc.Holding? ==> t.workers[w] == s.workers[w])
  {
    hide TriggerBoth, ExpiryOrder, Stopping, DispatchStep, PostRunStep, Settled;
    match step
    case IdleReady(fd, events, _) => TriggerBothFrame(s, fd, events);
    case Dispatch(spare) => DispatchHolds(s, w, spare);
    case PostRun => PostRunHolds(s, w);
    case IdleExpire(order) => OrderKnown(s, order);
    case _ =>
  }

  lemma ScanHolds(s: State, w: WorkerId)
    requires CanWork(s, w, Scan)
    ensures var t := WorkStep(s, w, Scan);
            w < |t.workers| && (t.workers[w].pc.Holding? ==>
              exists k :: 0 <= k < |s.queue| && t.workers[w].pc == Holding(s.queue[k]) && t.queue == RemoveAt(s.queue, k)
                && (s.queue[k].thread == None || s.queue[k].thread == Some(w)))
  {
    hide RemoveAt, ExecIds, FirstEligible;
    var k := FirstEligible(s.queue, w, ExecIds(s));
    FirstEligibleMeans(s.queue, w, ExecIds(s));
    if k < |s.queue| {
      assert WorkStep(s, w, Scan).workers == s.workers[w := s.workers[w].(pc := Holding(s.queue[k]))];
    }
  }

  lemma RunHolds(s: State, w: WorkerId, step: FiberStep)
    requires CanRun(s, w, step)
    ensures var t := RunStep(s, w, step); w < |t.workers| && !t.workers[w].pc.Holding?
  {
    hide Trigger;
    if step.RunTimeout? {
      var c, k := Self(s, w).body.value.call, Self(s, w).body.value.slot;
      if c in s.calls {
        TriggerFrame(ClearBody(s, w).(calls := s.calls[c := s.calls[c].(timedOutAt := Some(s.now))]), k);
      }
    }
  }

  lemma HomeNext(s: State, step: Step)
    requires Enabled(s, step) && HandsHome(s.workers)
    ensures HandsHome(Next(s, step).workers)
  {
    hide CanWork, WorkStep, CanRun, RunStep, CanAct, ActStep;
    match step
    case Tick(_) =>
    case OnWorker(w, work) =>
      WorkRecounts(s, w, work);
      if work.Scan? {
        ScanHolds(s, w);
      } else {
        WorkHolds(s, w, work);
      }
    case InFiber(w, act) => RunRecounts(s, w, act); RunHolds(s, w, act);
    case Program(_, action) => ActRecounts(s, action);
  }

  lemma {:induction false} HomeOverRun(s: State, run: seq<Step>)
    requires HandsHome(s.workers) && Legal(s, run)
    ensures HandsHome(After(s, run).workers)
    decreases |run|
  {
    hide Enabled, Next, HandsHome;
    if run != [] {
      HomeNext(s, run[0]);
      HomeOverRun(Next(s, run[0]), run[1..]);
    }
  }

  /** Main result: in every reachable state, a task in a worker's hand is pinned to that worker or to none. */
  lemma HeldAtHome(s: State, w: WorkerId)
    requires Reachable(s) && w < |s.workers| && s.workers[w].pc.Holding?
    ensures s.workers[w].pc.task.thread == None || s.workers[w].pc.task.thread == Some(w)
  {
    hide Legal, After;
    var n: nat, now: nat, run: seq<Step> :| Legal(Start(n, now), run) && After(Start(n, now), run) == s;
    HomeOverRun(Start(n, now), run);
  }

  // ----- a bound fiber is next run where it is bound to -----

  /** The wake-up of `f` is in the queue for worker `t` alone, or in that worker's hand. */
  predicate Bound(s: State, f: FiberId, t: WorkerId) {
    || Task(FiberWork(f), Some(t)) in s.queue
    || (t < |s.workers| && s.workers[t].pc == Holding(Task(FiberWork(f), Some(t))))
  }

  lemma BoundTicket(s: State, f: FiberId, t: WorkerId) returns (at: Place)
    requires Bound(s, f, t)
    ensures TicketAt(s, f, at) && (at == InHand(t) || at.Queued?)
  {
    if Task(FiberWork(f), Some(t)) in s.queue {
      var i :| 0 <= i < |s.queue| && s.queue[i] == Task(FiberWork(f), Some(t));
      at := Queued(i);
    } else {
      at := InHand(t);
    }
  }

  lemma ActingAtHome(s: State, step: Step, f: FiberId, t: WorkerId)
    requires Reachable(s) && Enabled(s, step) && Bound(s, f, t) && ActsOn(s, step, f)
    ensures step.w == t
  {
    hide Reachable;
    var at := BoundTicket(s, f, t);
    Guarantees.AtMostOneTicket(s, f, at, InHand(step.w));
  }

  /** A scan that takes the entry is one by the worker it is pinned to. */
  lemma ScanBound(s: State, w: WorkerId, f: FiberId, t: WorkerId)
    requires CanWork(s, w, Scan) && Bound(s, f, t)
    ensures Bound(WorkStep(s, w, Scan), f, t)
  {
    hide ExecIds, FirstEligible;
    var e := Task(FiberWork(f), Some(t));
    var k := FirstEligible(s.queue, w, ExecIds(s));
    FirstEligibleMeans(s.queue, w, ExecIds(s));
    if k < |s.queue| {
      assert WorkStep(s, w, Scan).workers == s.workers[w := s.workers[w].(pc := Holding(s.queue[k]))];
    }
    if e in s.queue && k < |s.queue| && s.queue[k] != e {
      var i :| 0 <= i < |s.queue| && s.queue[i] == e;
      assert RemoveAt(s.queue, k)[if i < k then i else i - 1] == e;
    }
  }

  lemma BoundStays(s: State, step: Step, f: FiberId, t: WorkerId)
    requires Enabled(s, step) && Bound(s, f, t) && !ActsOn(s, step, f)
    ensures Bound(Next(s, step), f, t)
  {
    hide CanRun, RunStep, CanAct, ActStep, WorkStep;
    match step
    case Tick(_) =>
    case OnWorker(w, work) =>
      if work.Scan? {
        ScanBound(s, w, f, t);
      } else {
        Guarantees.WorkQueue(s, w, work);
        WorkRecounts(s, w, work);
        if w == t && s.workers[t].pc.Holding? {
          assert work.Dispatch?;
        }
      }
    case InFiber(w, act) => Guarantees.RunQueue(s, w, act); RunRecounts(s, w, act); NotHolding(s, w, act);
    case Program(_, action) => Guarantees.ActQueue(s, action); ActRecounts(s, action);
  }

  lemma NotHolding(s: State, w: WorkerId, step: FiberStep)
    requires CanRun(s, w, step)
    ensures w < |s.workers| && !s.workers[w].pc.Holding?
  {}

  /** The first step of the run that acts on the fiber's wake-up, if there is one, is by worker `t`. */
  ghost predicate RunsFirstOn(s: State, run: seq<Step>, f: FiberId, t: WorkerId)
    requires Legal(s, run)
    decreases |run|
  {
    run != [] ==> if ActsOn(s, run[0], f) then run[0].w == t else RunsFirstOn(Next(s, run[0]), run[1..], f, t)
  }

  /** Main result: over any run from a reachable state, a fiber bound to a worker is next run by it. */
  lemma {:induction false} BoundRunsHome(s: State, run: seq<Step>, f: FiberId, t: WorkerId)
    requires Reachable(s) && Legal(s, run) && Bound(s, f, t)
    ensures RunsFirstOn(s, run, f, t)
    decreases |run|
  {
    hide Reachable, Enabled, Next, Bound, ActsOn;
    if run != [] {
      if ActsOn(s, run[0], f) {
        ActingAtHome(s, run[0], f, t);
      } else {
        BoundStays(s, run[0], f, t);
        ReachableNext(s, run[0]);
        BoundRunsHome(Next(s, run[0]), run[1..], f, t);
      }
    }
  }

  /** switchTo and the scheduling calls bind the fiber to the thread that is asked for. */
  lemma Binds(s: State, step: Step, t: WorkerId)
    requires Enabled(s, step)
    ensures step.InFiber? && step.act == SwitchTo(Some(t)) ==> Bound(Next(s, step), Current(s, step.w), t)
    ensures step.Program? && (step.action.Spawn? || step.action.Submit?) && step.action.thread == Some(t) ==>
              Bound(Next(s, step), step.action.fiber, t)
  {
    hide NoTicket, NotOnCpu, NotCbFiber;
    var q := Next(s, step).queue;
    if (step.InFiber? && step.act == SwitchTo(Some(t))) || (step.Program? && (step.action.Spawn? || step.action.Submit?)) {
      assert q[|q| - 1] in q;
    }
  }

  // ----- nothing else pins a task -----

  /** The thread that the step asks for. */
  function Asked(step: Step): Option<WorkerId> {
    match step
    case InFiber(_, SwitchTo(thread)) => thread
    case Program(_, Spawn(_, thread)) => thread
    case Program(_, Submit(_, thread)) => thread
    case Program(_, Call(_, thread)) => thread
    case _ => None
  }

  /** What was appended has this thread. */
  ghost predicate AddsFor(q: seq<Task>, q': seq<Task>, thread: Option<WorkerId>) {
    q <= q' && forall i :: |q| <= i < |q'| ==> q'[i].thread == thread
  }

  lemma TriggerAdds(s: State, k: Slot)
    ensures AddsFor(s.queue, Trigger(s, k).queue, None)
  {}

  lemma AddsTwice(a: seq<Task>, b: seq<Task>, c: seq<Task>)
    requires AddsFor(a, b, None) && AddsFor(b, c, None)
    ensures AddsFor(a, c, None)
  {
    forall i | |a| <= i < |c| ensures c[i].thread == None {
      assert i < |b| ==> c[i] == b[i];
    }
  }

  lemma BothAdd(s: State, fd: nat, events: set<Event>)
    ensures AddsFor(s.queue, TriggerBoth(s, fd, events).queue, None)
  {
    hide Trigger, AddsFor;
    NothingAdded(s.queue);
    TriggerAdds(s, Slot(fd, Read));
    TriggerAdds(s, Slot(fd, Write));
    TriggerAdds(Trigger(s, Slot(fd, Read)), Slot(fd, Write));
    AddsTwice(s.queue, Trigger(s, Slot(fd, Read)).queue, Trigger(Trigger(s, Slot(fd, Read)), Slot(fd, Write)).queue);
  }

  lemma NothingAdded(q: seq<Task>)
    ensures forall thread :: AddsFor(q, q, thread)
  {}

  lemma DispatchAdds(s: State, w: WorkerId, spare: FiberId)
    requires CanDispatch(s, w, spare)
    ensures DispatchStep(s, w, spare).queue == s.queue
  {}

  lemma PostRunAdds(s: State, w: WorkerId)
    requires CanPostRun(s, w)
    ensures AddsFor(s.queue, PostRunStep(s, w).queue, None)
  {
    hide Settled;
    assert Settle(s, w).queue == s.queue;
    var t := Task(FiberWork(s.workers[w].pc.fiber), None);
    assert PostRunStep(s, w).queue == s.queue || PostRunStep(s, w).queue == s.queue + [t];
  }

  lemma WorkAdds(s: State, w: WorkerId, step: WorkerStep)
    requires CanWork(s, w, step) && !step.Scan?
    ensures AddsFor(s.queue, WorkStep(s, w, step).queue, None)
  {
    hide AddsFor, TriggerBoth, ExpiryOrder, Stopping, DispatchStep, PostRunStep, ExpireStep;
    NothingAdded(s.queue);
    match step
    case IdleReady(fd, events, _) => BothAdd(s, fd, events);
    case Dispatch(spare) => DispatchAdds(s, w, spare);
    case PostRun => PostRunAdds(s, w);
    case IdleExpire(order) => OrderKnown(s, order); ExpireAdds(s, order);
    case _ =>
  }

  lemma ExpireAdds(s: State, order: seq<nat>)
    requires forall i :: 0 <= i < |order| ==> order[i] in s.timers
    ensures AddsFor(s.queue, ExpireStep(s, order).queue, None)
  {}

  lemma RunAdds(s: State, w: WorkerId, step: FiberStep)
    requires CanRun(s, w, step)
    ensures AddsFor(s.queue, RunStep(s, w, step).queue, Asked(InFiber(w, step)))
  {
    hide Trigger;
    if step.RunTimeout? {
      var c, k := Self(s, w).body.value.call, Self(s, w).body.value.slot;
      if c in s.calls {
        TriggerAdds(ClearBody(s, w).(calls := s.calls[c := s.calls[c].(timedOutAt := Some(s.now))]), k);
      }
    }
  }

  lemma ActAdds(s: State, who: Option<WorkerId>, action: Action)
    requires CanAct(s, action)
    ensures AddsFor(s.queue, ActStep(s, action).queue, Asked(Program(who, action)))
  {
    hide Trigger, TriggerBoth, NoTicket, NotOnCpu, NotCbFiber;
    match action
    case CancelEvent(k, _) => TriggerAdds(s, k);
    case CancelAll(fd, _) => BothAdd(s, fd, {Read, Write});
    case _ =>
  }

  /** Every task that a step appends carries exactly the thread that the step was asked for, and so none
      for events, timers, sleepers and fibers that yield. */
  lemma PinnedAsAsked(s: State, step: Step, i: nat)
    requires Enabled(s, step) && !(step.OnWorker? && step.work.Scan?)
    ensures |s.queue| <= i < |Next(s, step).queue| ==> Next(s, step).queue[i].thread == Asked(step)
  {
    hide CanWork, WorkStep, CanRun, RunStep, CanAct, ActStep;
    match step
    case Tick(_) =>
    case OnWorker(w, work) => WorkAdds(s, w, work);
    case InFiber(w, act) => RunAdds(s, w, act);
    case Program(who, action) => ActAdds(s, who, action);
  }
}
