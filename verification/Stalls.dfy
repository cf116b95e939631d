/** No worker is ever stuck, except at an assertion of addEvent; a fiber that is off its worker is never
    held back by its state; and a timer that is gone stays gone. */
module Stalls {
  import opened Wrappers
  import opened Tasks
  import opened Runtime
  import opened Tickets
  import opened Calls
  import opened Safety
  import Lambdas
  import Sleeps

  // ----- every worker can go on -----

  /** A step of this worker or of the fiber it runs. */
  predicate StepOf(step: Step, w: WorkerId) {
    (step.OnWorker? && step.w == w) || (step.InFiber? && step.w == w)
  }

  /** The worker's fiber is about to register for an event whose slot is taken: the assertion of addEvent. */
  predicate AtTakenSlot(s: State, w: WorkerId) {
    RunsIo(s, w, TimerSet) && s.calls[Self(s, w).io.value].slot in s.slots
  }

  lemma {:induction false} FreshId(ids: set<FiberId>) returns (f: FiberId)
    ensures f !in ids && forall g :: g in ids ==> g < f
    decreases ids
  {
    if ids == {} {
      f := 0;
    } else {
      var g :| g in ids;
      var rest := FreshId(ids - {g});
      f := if rest > g then rest else g + 1;
      assert forall h :: h in ids ==> h == g || h in ids - {g};
    }
  }

  lemma WorkerGoes(s: State, w: WorkerId) returns (step: Step)
    requires TicketInv(s) && w < |s.workers| && !s.workers[w].pc.Running? && !s.workers[w].pc.Exited?
    ensures Enabled(s, step) && StepOf(step, w)
  {
    hide AllTickets, Unique, TimersOnce;
    match s.workers[w].pc {
      case Scanning => step := OnWorker(w, Scan);
      case Idling => step := OnWorker(w, IdleYield);
      case Returned(_, _) => step := OnWorker(w, PostRun);
      case Holding(_) =>
        var spare := FreshId(s.fibers.Keys);
        step := OnWorker(w, Dispatch(spare));
    }
  }

  lemma FiberGoes(s: State, w: WorkerId) returns (step: Step)
    requires CallInv(s) && Runs(s, w) && !AtTakenSlot(s, w)
    ensures Enabled(s, step) && StepOf(step, w)
  {
    hide BodiesRun, Records, CallTimers, QueueRipe, HandsRipe, BodiesRipe, SlotsPlain, Finished;
    var x := Self(s, w);
    step := InFiber(w, YieldHold);
    if !x.armed {
      if x.io.Some? {
        var stage := s.calls[x.io.value].stage;
        step := InFiber(w, match stage case Trying => IoDone case TimerSet => IoAdd(true) case Parked => IoWake);
      } else if x.body.Some? && x.body.value.Resume? {
        step := InFiber(w, RunResume);
      } else if x.body.Some? && x.body.value.Timeout? {
        step := InFiber(w, RunTimeout(true));
      }
    }
  }

  lemma RunningKnown(s: State, w: WorkerId)
    requires TicketInv(s) && w < |s.workers| && s.workers[w].pc.Running?
    ensures Runs(s, w)
  {
    hide AllTickets, Unique, TimersOnce;
  }

  lemma TakenSlotStops(s: State, w: WorkerId, step: Step)
    requires AtTakenSlot(s, w) && StepOf(step, w)
    ensures !Enabled(s, step)
  {
    hide ExpiryOrder, Stopping;
  }

  /** Main result: in every reachable state, a worker that has not left its loop can take a step, itself or
      the fiber it runs, if and only if that fiber is not about to fail the assertion of addEvent. */
  lemma NeverStuck(s: State, w: WorkerId)
    requires Reachable(s) && w < |s.workers| && !s.workers[w].pc.Exited?
    ensures (exists step :: StepOf(step, w) && Enabled(s, step)) <==> !AtTakenSlot(s, w)
  {
    hide Reachable, TicketInv, CallInv, CountActive, Enabled;
    ReachableInv(s);
    if AtTakenSlot(s, w) {
      forall step | StepOf(step, w) ensures !Enabled(s, step) {
        TakenSlotStops(s, w, step);
      }
    } else if s.workers[w].pc.Running? {
      RunningKnown(s, w);
      var step := FiberGoes(s, w);
    } else {
      var step := WorkerGoes(s, w);
    }
  }

  // ----- only what is on a worker is executing -----

  ghost function OnWorkers(ws: Workers): set<FiberId> {
    set w | 0 <= w < |ws| && ws[w].OnCpu().Some? :: ws[w].OnCpu().value
  }

  predicate Executes(fs: Fibers, f: FiberId) {
    f in fs && fs[f].state == Exec
  }

  ghost predicate ExecOn(ws: Workers, fs: Fibers) {
    forall f :: Executes(fs, f) ==> f in OnWorkers(ws)
  }

  lemma OnMoved(ws: Workers, w: WorkerId, x: Worker, fs: Fibers, fs': Fibers)
    requires w < |ws| && ExecOn(ws, fs)
    requires forall f: FiberId :: Executes(fs', f) ==> x.OnCpu() == Some(f) || (Executes(fs, f) && ws[w].OnCpu() != Some(f))
    ensures ExecOn(ws[w := x], fs')
  {
    forall f | Executes(fs', f) ensures f in OnWorkers(ws[w := x]) {
      if x.OnCpu() == Some(f) {
        assert ws[w := x][w] == x;
      } else {
        var v :| 0 <= v < |ws| && ws[v].OnCpu() == Some(f);
        assert ws[w := x][v] == ws[v];
      }
    }
  }

  lemma DispatchExec(s: State, w: WorkerId, spare: FiberId)
    requires CanDispatch(s, w, spare) && ExecOn(s.workers, s.fibers)
    ensures var t := DispatchStep(s, w, spare); ExecOn(t.workers, t.fibers)
  {
    hide ExecOn;
    var t := DispatchStep(s, w, spare);
    DispatchShape(s, w, spare);
    OnMoved(s.workers, w, t.workers[w], s.fibers, t.fibers);
  }

  lemma DispatchShape(s: State, w: WorkerId, spare: FiberId)
    requires CanDispatch(s, w, spare)
    ensures
      var t := DispatchStep(s, w, spare);
      && w < |t.workers| && t.workers == s.workers[w := t.workers[w]]
      && forall f: FiberId :: Executes(t.fibers, f) ==>
           t.workers[w].OnCpu() == Some(f) || (Executes(s.fibers, f) && s.workers[w].OnCpu() != Some(f))
  {
    var t := DispatchStep(s, w, spare);
    match s.workers[w].pc.task.work
    case FiberWork(g) =>
      if s.fibers[g].state == Term || s.fibers[g].state == Except {
        assert t.fibers == s.fibers && t.workers == s.workers[w := s.workers[w].(pc := Scanning)];
      } else {
        assert t.fibers == s.fibers[g := s.fibers[g].(state := Exec)];
        assert t.workers == s.workers[w := s.workers[w].(pc := Running(g, false))];
      }
    case CallWork(_) =>
  }

  lemma PostRunExec(s: State, w: WorkerId)
    requires CanPostRun(s, w) && ExecOn(s.workers, s.fibers)
    ensures var t := PostRunStep(s, w); ExecOn(t.workers, t.fibers)
  {
    hide ExecOn;
    var t, f := PostRunStep(s, w), s.workers[w].pc.fiber;
    assert t.workers == Settle(s, w).workers && t.fibers == s.fibers[f := Settled(s.fibers[f], s.workers[w].pc.viaCb)];
    assert t.workers == s.workers[w := t.workers[w]];
    OnMoved(s.workers, w, t.workers[w], s.fibers, t.fibers);
  }

  lemma WorkExec(s: State, w: WorkerId, step: WorkerStep)
    requires CanWork(s, w, step) && ExecOn(s.workers, s.fibers)
    ensures var t := WorkStep(s, w, step); ExecOn(t.workers, t.fibers)
  {
    hide ExecOn, TriggerBoth, ExpiryOrder, Stopping, DispatchStep, PostRunStep, RemoveAt, FirstEligible, ExecIds, ExpireStep;
    match step
    case IdleReady(fd, events, _) => TriggerBothFrame(s, fd, events);
    case Dispatch(spare) => DispatchExec(s, w, spare);
    case PostRun => PostRunExec(s, w);
    case IdleExpire(order) => OrderKnown(s, order); ExpireRest(s, order);
    case _ => OnMoved(s.workers, w, WorkStep(s, w, step).workers[w], s.fibers, s.fibers);
              assert WorkStep(s, w, step).workers == s.workers[w := WorkStep(s, w, step).workers[w]];
  }

  lemma ExpireRest(s: State, order: seq<nat>)
    requires forall i :: 0 <= i < |order| ==> order[i] in s.timers
    ensures ExpireStep(s, order).workers == s.workers && ExpireStep(s, order).fibers == s.fibers
  {}

  lemma RunStays(s: State, w: WorkerId, step: FiberStep)
    requires CanRun(s, w, step)
    ensures var t := RunStep(s, w, step); w < |t.workers| && t.workers[w].OnCpu() == Some(Current(s, w))
  {
    hide Trigger;
    if step.RunTimeout? {
      var c, k := Self(s, w).body.value.call, Self(s, w).body.value.slot;
      if c in s.calls {
        TriggerFrame(ClearBody(s, w).(calls := s.calls[c := s.calls[c].(timedOutAt := Some(s.now))]), k);
      }
    }
  }

  lemma RunExec(s: State, w: WorkerId, step: FiberStep)
    requires CanRun(s, w, step) && ExecOn(s.workers, s.fibers)
    ensures var t := RunStep(s, w, step); ExecOn(t.workers, t.fibers)
  {
    hide ExecOn, RunStep;
    var t := RunStep(s, w, step);
    RunRecounts(s, w, step);
    RunStays(s, w, step);
    forall f | Executes(t.fibers, f) && f != Current(s, w) ensures Executes(s.fibers, f) {
      Lambdas.OthersIn(s, w, step, f);
    }
    OnMoved(s.workers, w, t.workers[w], s.fibers, t.fibers);
  }

  lemma ActExec(s: State, action: Action)
    requires CanAct(s, action) && ExecOn(s.workers, s.fibers)
    ensures var t := ActStep(s, action); ExecOn(t.workers, t.fibers)
  {
    hide OnWorkers, Trigger, TriggerBoth, NoTicket, NotOnCpu, NotCbFiber;
    if action.CancelEvent? {
      TriggerFrame(s, action.slot);
    } else if action.CancelAll? {
      TriggerBothFrame(s, action.fd, {Read, Write});
    }
  }

  lemma ExecNext(s: State, step: Step)
    requires Enabled(s, step) && ExecOn(s.workers, s.fibers)
    ensures var t := Next(s, step); ExecOn(t.workers, t.fibers)
  {
    hide ExecOn, CanWork, WorkStep, CanRun, RunStep, CanAct, ActStep;
    match step
    case Tick(_) =>
    case OnWorker(w, work) => WorkExec(s, w, work);
    case InFiber(w, act) => RunExec(s, w, act);
    case Program(_, action) => ActExec(s, action);
  }

  lemma {:induction false} ExecOverRun(s: State, run: seq<Step>)
    requires Legal(s, run) && ExecOn(s.workers, s.fibers)
    ensures ExecOn(After(s, run).workers, After(s, run).fibers)
    decreases |run|
  {
    hide ExecOn, Enabled, Next;
    if run != [] {
      ExecNext(s, run[0]);
      ExecOverRun(Next(s, run[0]), run[1..]);
    }
  }

  /** Main result: in every reachable state a fiber in EXEC is on a worker. So once a fiber is off its
      worker, the EXEC check of the scan no longer holds it back. */
  lemma ExecIsOnWorker(s: State, f: FiberId)
    requires Reachable(s) && f in s.fibers && s.fibers[f].state == Exec
    ensures exists w :: 0 <= w < |s.workers| && s.workers[w].OnCpu() == Some(f)
  {
    hide Legal, After;
    var n: nat, now: nat, run: seq<Step> :| Legal(Start(n, now), run) && After(Start(n, now), run) == s;
    ExecOverRun(Start(n, now), run);
    assert Executes(s.fibers, f) && f in OnWorkers(s.workers);
  }

  // ----- a timer that is gone -----

  predicate Gone(s: State, id: nat) {
    id < s.nextTimer && id !in s.timers
  }

  lemma WorkGone(s: State, w: WorkerId, step: WorkerStep, id: nat)
    requires CanWork(s, w, step) && Gone(s, id)
    ensures Gone(WorkStep(s, w, step), id)
  {
    hide ExpiryOrder, Stopping, DispatchStep, RemoveAt, FirstEligible, ExecIds, Settled;
    match step
    case Dispatch(spare) => DispatchGone(s, w, spare);
    case IdleExpire(order) => OrderKnown(s, order);
    case _ =>
  }

  lemma DispatchGone(s: State, w: WorkerId, spare: FiberId)
    requires CanDispatch(s, w, spare)
    ensures DispatchStep(s, w, spare).timers == s.timers && DispatchStep(s, w, spare).nextTimer == s.nextTimer
  {}

  lemma RunGone(s: State, w: WorkerId, step: FiberStep, id: nat)
    requires CanRun(s, w, step) && Gone(s, id)
    ensures Gone(RunStep(s, w, step), id)
  {
    hide Trigger;
    if step.RunTimeout? {
      var c, k := Self(s, w).body.value.call, Self(s, w).body.value.slot;
      if c in s.calls {
        TriggerFrame(ClearBody(s, w).(calls := s.calls[c := s.calls[c].(timedOutAt := Some(s.now))]), k);
      }
    }
  }

  lemma ActGone(s: State, action: Action, id: nat)
    requires CanAct(s, action) && Gone(s, id)
    ensures Gone(ActStep(s, action), id)
  {
    hide NoTicket, NotOnCpu, NotCbFiber;
  }

  lemma GoneNext(s: State, step: Step, id: nat)
    requires Enabled(s, step) && Gone(s, id)
    ensures Gone(Next(s, step), id)
  {
    hide Gone, CanWork, WorkStep, CanRun, RunStep, CanAct, ActStep;
    match step
    case Tick(_) => SameGone(s, Next(s, step), id);
    case OnWorker(w, work) => WorkGone(s, w, work, id);
    case InFiber(w, act) => RunGone(s, w, act, id);
    case Program(_, action) => ActGone(s, action, id);
  }

  lemma SameGone(s: State, t: State, id: nat)
    requires Gone(s, id) && t.timers == s.timers && t.nextTimer == s.nextTimer
    ensures Gone(t, id)
  {}

  lemma {:induction false} GoneOverRun(s: State, run: seq<Step>, id: nat)
    requires Legal(s, run) && Gone(s, id)
    ensures Gone(After(s, run), id)
    decreases |run|
  {
    hide Gone, Enabled, Next;
    if run != [] {
      GoneNext(s, run[0], id);
      GoneOverRun(Next(s, run[0]), run[1..], id);
    }
  }

  /** Main result: a timer that the program stops is never set again, whatever happens afterwards, so no
      later expiry hands its callback out. */
  lemma StoppedForGood(s: State, who: Option<WorkerId>, id: nat, run: seq<Step>)
    requires Reachable(s) && id in s.timers && Enabled(s, Program(who, StopTimer(id)))
    requires Legal(Next(s, Program(who, StopTimer(id))), run)
    ensures id !in After(Next(s, Program(who, StopTimer(id))), run).timers
  {
    hide Reachable, Inv, Legal, After, Enabled, Next, Gone;
    ReachableInv(s);
    TimerKnown(s, id);
    StopTakes(s, who, id);
    GoneOverRun(Next(s, Program(who, StopTimer(id))), run, id);
    GoneMeans(After(Next(s, Program(who, StopTimer(id))), run), id);
  }

  lemma StopTakes(s: State, who: Option<WorkerId>, id: nat)
    requires Enabled(s, Program(who, StopTimer(id))) && id < s.nextTimer
    ensures Gone(Next(s, Program(who, StopTimer(id))), id)
  {}

  lemma GoneMeans(s: State, id: nat)
    requires Gone(s, id)
    ensures id !in s.timers
  {}

  lemma TimerKnown(s: State, id: nat)
    requires Inv(s) && id in s.timers
    ensures id < s.nextTimer
  {
    hide CallInv, CountActive, AllTickets, Unique, Cpu;
  }
}
