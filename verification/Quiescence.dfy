/** Stopping: once it holds nothing inside the runtime can create work, so workers leave nothing behind. */
module Quiescence {
  import opened Wrappers
  import opened Tasks
  import opened Runtime
  import opened Tickets
  import Calls
  import opened Safety

  /** A step of an outside thread; everything else happens inside the runtime. */
  predicate Outside(step: Step) {
    step.Program? && step.who == None
  }

  lemma NobodyActive(s: State, w: WorkerId)
    requires s.active == CountActive(s.workers) && Stopping(s) && w < |s.workers|
    ensures !s.workers[w].Active()
  {
    if s.workers[w].Active() {
      CountZero(s.workers, w);
    }
  }

  /** In every reachable state: stopping holds exactly when a stop was asked for and nothing is left to do,
      neither queued nor waiting for time or events nor held by any worker. */
  lemma StoppingExactly(s: State)
    requires Reachable(s)
    ensures Stopping(s) <==>
              && s.stopRequested && s.queue == [] && s.timers == map[] && s.slots == map[]
              && (forall w :: 0 <= w < |s.workers| ==>
                    !s.workers[w].pc.Holding? && !s.workers[w].pc.Running? && !s.workers[w].pc.Returned?)
  {
    hide Reachable, TicketInv, Calls.CallInv;
    ReachableInv(s);
    if s.active == 0 {
      forall w | 0 <= w < |s.workers| ensures !s.workers[w].Active() {
        if s.workers[w].Active() {
          CountZero(s.workers, w);
        }
      }
    } else if forall w :: 0 <= w < |s.workers| ==> !s.workers[w].Active() {
      CountNone(s.workers);
    }
  }

  lemma {:induction false} CountNone(ws: Workers)
    requires forall w :: 0 <= w < |ws| ==> !ws[w].Active()
    ensures CountActive(ws) == 0
  {
    if ws != [] {
      CountNone(ws[1..]);
    }
  }

  lemma NothingDue(s: State, order: seq<nat>)
    requires ExpiryOrder(s, order)
    ensures order != [] ==> s.timers != map[]
  {
    if order != [] {
      assert order[0] in s.timers;
    }
  }

  lemma StoppingWork(s: State, w: WorkerId, step: WorkerStep)
    requires s.active == CountActive(s.workers) && Stopping(s) && CanWork(s, w, step)
    ensures Stopping(WorkStep(s, w, step))
  {
    NobodyActive(s, w);
    match step
    case IdleExpire(order) =>
      NothingDue(s, order);
      assert ExpireStep(s, order).timers == map[];
    case IdleReady(fd, events, _) =>
      assert Read in events ==> Slot(fd, Read) in s.slots;
      assert Write in events ==> Slot(fd, Write) in s.slots;
    case _ =>
  }

  /** Quiescence is stable: no step inside the runtime ends it. */
  lemma StoppingIsStable(s: State, step: Step)
    requires Inv(s) && Stopping(s) && Enabled(s, step) && !Outside(step)
    ensures Stopping(Next(s, step))
  {
    hide TicketInv, Calls.CallInv, CanWork, WorkStep, RunStep, ActStep, CanAct;
    match step
    case Tick(_) =>
    case OnWorker(w, work) => StoppingWork(s, w, work);
    case InFiber(w, act) => NobodyActive(s, w);
    case Program(who, _) => NobodyActive(s, who.value);
  }

  /** Some worker's idle fiber has ended, or the worker has left its loop. */
  ghost predicate SomeoneDone(s: State) {
    exists w :: 0 <= w < |s.workers| && s.workers[w].idleDone
  }

  /** Outside threads keep quiet once a worker has been told to stop. */
  ghost predicate QuietAfterStop(s: State, run: seq<Step>)
    requires Legal(s, run)
    decreases |run|
  {
    run != [] ==> (Outside(run[0]) ==> !SomeoneDone(s)) && QuietAfterStop(Next(s, run[0]), run[1..])
  }

  /** Workers leave only after their idle fiber ended. */
  ghost predicate ExitsDone(s: State) {
    forall w :: 0 <= w < |s.workers| && s.workers[w].pc.Exited? ==> s.workers[w].idleDone
  }

  /** Only a successful test of `stopping` ends an idle fiber, and only then does a worker leave. */
  lemma DoneNext(s: State, step: Step)
    requires Enabled(s, step) && ExitsDone(s)
    ensures ExitsDone(Next(s, step))
    ensures SomeoneDone(Next(s, step)) ==> SomeoneDone(s) || Stopping(s)
  {
    hide CanWork, WorkStep, CanRun, RunStep, CanAct, ActStep;
    match step
    case Tick(_) =>
    case OnWorker(w, work) => WorkRecounts(s, w, work); WorkDone(s, w, work); DoneAt(s, Next(s, step), w);
    case InFiber(w, act) => RunRecounts(s, w, act); RunDone(s, w, act); DoneAt(s, Next(s, step), w);
    case Program(_, action) => ActRecounts(s, action);
  }

  lemma DoneAt(s: State, s': State, w: WorkerId)
    requires Recounted(s, s', w) && ExitsDone(s)
    requires EndsByTest(s, s', w)
    ensures ExitsDone(s')
    ensures SomeoneDone(s') ==> SomeoneDone(s) || Stopping(s)
  {}

  /** Worker `w` ends its idle fiber only after a successful test, and leaves only after that. */
  ghost predicate EndsByTest(s: State, s': State, w: WorkerId) {
    && w < |s.workers| && w < |s'.workers|
    && (s'.workers[w].idleDone ==> s.workers[w].idleDone || Stopping(s))
    && (s'.workers[w].pc.Exited? ==> s'.workers[w].idleDone)
  }

  lemma WorkDone(s: State, w: WorkerId, step: WorkerStep)
    requires CanWork(s, w, step)
    ensures EndsByTest(s, WorkStep(s, w, step), w)
  {
    hide TriggerBoth, ExpiryOrder, Stopping, DispatchStep, PostRunStep, ExpireStep, RemoveAt, ExecIds, FirstEligible;
    match step
    case IdleReady(fd, events, _) => TriggerBothFrame(s, fd, events);
    case Dispatch(spare) => DispatchDone(s, w, spare);
    case PostRun => PostRunDone(s, w);
    case IdleExpire(order) => OrderKnown(s, order); ExpireDone(s, w, order);
    case _ =>
  }

  lemma DispatchDone(s: State, w: WorkerId, spare: FiberId)
    requires CanDispatch(s, w, spare)
    ensures EndsByTest(s, DispatchStep(s, w, spare), w)
  {
    hide Stopping;
    match s.workers[w].pc.task.work
    case FiberWork(f) =>
      assert DispatchStep(s, w, spare).workers
             == s.workers[w := s.workers[w].(pc := if s.fibers[f].state in {Term, Except} then Scanning else Running(f, false))];
    case CallWork(cb) =>
  }

  lemma PostRunDone(s: State, w: WorkerId)
    requires CanPostRun(s, w)
    ensures EndsByTest(s, PostRunStep(s, w), w)
  {
    hide Settled, Stopping;
    assert PostRunStep(s, w).workers == Settle(s, w).workers;
  }

  lemma ExpireDone(s: State, w: WorkerId, order: seq<nat>)
    requires w < |s.workers| && forall i :: 0 <= i < |order| ==> order[i] in s.timers
    ensures ExpireStep(s, order).workers == s.workers
  {}

  lemma RunDone(s: State, w: WorkerId, step: FiberStep)
    requires CanRun(s, w, step)
    ensures EndsByTest(s, RunStep(s, w, step), w)
  {
    hide Trigger, Stopping;
    if step.RunTimeout? {
      var c, k := Self(s, w).body.value.call, Self(s, w).body.value.slot;
      if c in s.calls {
        TriggerFrame(ClearBody(s, w).(calls := s.calls[c := s.calls[c].(timedOutAt := Some(s.now))]), k);
      }
    }
  }

  lemma {:induction false} DoneRun(s: State, run: seq<Step>)
    requires Inv(s) && ExitsDone(s) && (SomeoneDone(s) ==> Stopping(s))
    requires Legal(s, run) && QuietAfterStop(s, run)
    ensures ExitsDone(After(s, run)) && (SomeoneDone(After(s, run)) ==> Stopping(After(s, run)))
    decreases |run|
  {
    hide Inv, Enabled, Next, Stopping, SomeoneDone, ExitsDone;
    if run != [] {
      var step := run[0];
      NextKeeps(s, step);
      DoneNext(s, step);
      if SomeoneDone(Next(s, step)) {
        if Outside(step) {
          OutsideDone(s, step);
        } else {
          StoppingIsStable(s, step);
        }
      }
      DoneRun(Next(s, step), run[1..]);
    }
  }

  lemma OutsideDone(s: State, step: Step)
    requires Enabled(s, step) && Outside(step)
    ensures SomeoneDone(Next(s, step)) == SomeoneDone(s)
  {
    hide CanAct, ActStep;
    ActRecounts(s, step.action);
  }

  /** When a worker has left its loop, no task, timer or registered event remains anywhere,
      provided outside threads stopped submitting when the first worker was told to stop. */
  lemma NothingLeftBehind(n: nat, now: nat, run: seq<Step>, w: WorkerId)
    requires Legal(Start(n, now), run) && QuietAfterStop(Start(n, now), run)
    requires w < |After(Start(n, now), run).workers| && After(Start(n, now), run).workers[w].pc.Exited?
    ensures
      var s := After(Start(n, now), run);
      && s.queue == [] && s.timers == map[] && s.slots == map[]
      && (forall v :: 0 <= v < |s.workers| ==> !s.workers[v].Active())
  {
    hide Legal, After, QuietAfterStop, TicketInv, Calls.CallInv;
    var s := After(Start(n, now), run);
    StartInv(n, now);
    DoneRun(Start(n, now), run);
    RunKeeps(Start(n, now), run);
    assert s.workers[w].idleDone;
    forall v | 0 <= v < |s.workers| ensures !s.workers[v].Active() {
      NobodyActive(s, v);
    }
  }
}
