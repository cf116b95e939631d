/** The loop of a blocking call: what it returns tells how far it had come, and a call that was woken
    without a timeout tries again. */
module Retries {
  import opened Wrappers
  import opened Tasks
  import opened Runtime
  import opened Tickets
  import opened Calls
  import opened Safety
  import Lambdas
  import Sleeps
  import Timeouts

  // ----- what is returned, and from where -----

  /** A call completes while it tries, fails while it registers, and times out after it was parked. */
  ghost predicate ResultsTell(finished: seq<IoReturn>) {
    forall r :: r in finished ==>
      && (r.result == Completed <==> r.call.stage == Trying)
      && (r.result == AddFailed <==> r.call.stage == TimerSet)
      && (r.result == TimedOut <==> r.call.stage == Parked)
  }

  lemma ReturnTells(s: State, w: WorkerId, result: IoResult)
    requires Runs(s, w) && Self(s, w).io.Some? && Self(s, w).io.value in s.calls && ResultsTell(s.finished)
    requires var stage := s.calls[Self(s, w).io.value].stage;
             match result case Completed => stage == Trying case AddFailed => stage == TimerSet case TimedOut => stage == Parked
    ensures ResultsTell(IoReturnStep(s, w, result).finished)
  {}

  lemma RunTells(s: State, w: WorkerId, step: FiberStep)
    requires CanRun(s, w, step) && ResultsTell(s.finished)
    ensures ResultsTell(RunStep(s, w, step).finished)
  {
    hide Trigger, IoReturnStep, ResultsTell;
    match step {
      case RunTimeout(_) =>
        var c, k := Self(s, w).body.value.call, Self(s, w).body.value.slot;
        if c in s.calls {
          TriggerFrame(ClearBody(s, w).(calls := s.calls[c := s.calls[c].(timedOutAt := Some(s.now))]), k);
        }
      case IoDone => ReturnTells(s, w, Completed);
      case IoAdd(ok) => if !ok { ReturnTells(s, w, AddFailed); }
      case IoWake => if s.calls[Self(s, w).io.value].timedOutAt.Some? { ReturnTells(s, w, TimedOut); }
      case _ =>
    }
  }

  lemma TellsNext(s: State, step: Step)
    requires Enabled(s, step) && ResultsTell(s.finished)
    ensures ResultsTell(Next(s, step).finished)
  {
    hide CanWork, WorkStep, CanRun, RunStep, CanAct, ActStep, ResultsTell;
    match step
    case Tick(_) =>
    case OnWorker(w, work) => Timeouts.WorkSameCalls(s, w, work);
    case InFiber(w, act) => RunTells(s, w, act);
    case Program(_, action) => Timeouts.ActSameCalls(s, action);
  }

  lemma {:induction false} TellsOverRun(s: State, run: seq<Step>)
    requires ResultsTell(s.finished) && Legal(s, run)
    ensures ResultsTell(After(s, run).finished)
    decreases |run|
  {
    hide Enabled, Next, ResultsTell;
    if run != [] {
      TellsNext(s, run[0]);
      TellsOverRun(Next(s, run[0]), run[1..]);
    }
  }

  /** Main result: in every reachable state, a call that reported success got its answer from an attempt,
      one that failed did so at addEvent, and one that reported a timeout had been parked. */
  lemma ResultTells(s: State, r: IoReturn)
    requires Reachable(s) && r in s.finished
    ensures r.result == Completed <==> r.call.stage == Trying
    ensures r.result == AddFailed <==> r.call.stage == TimerSet
    ensures r.result == TimedOut <==> r.call.stage == Parked
  {
    hide Legal, After;
    var n: nat, now: nat, run: seq<Step> :| Legal(Start(n, now), run) && After(Start(n, now), run) == s;
    TellsOverRun(Start(n, now), run);
  }

  // ----- the retry -----

  /** A woken call that was not timed out goes back to its attempt, with its old timer gone and nothing
      returned; one that was returns the timeout, and its record is gone. */
  lemma WokenRetries(s: State, w: WorkerId)
    requires CanRun(s, w, IoWake)
    ensures
      var c, t := Self(s, w).io.value, RunStep(s, w, IoWake);
      && t.slots == s.slots && t.queue == s.queue && t.workers == s.workers
      && (forall id :: id in t.timers <==> id in s.timers && s.calls[c].timer != Some(id))
      && (forall id :: id in t.timers ==> t.timers[id] == s.timers[id])
      && if s.calls[c].timedOutAt == None then
           && c in t.calls && t.calls[c].stage == Trying && t.calls[c].timer == None && t.calls[c].timedOutAt == None
           && t.calls[c].slot == s.calls[c].slot && t.calls[c].timeout == s.calls[c].timeout && t.calls[c].begun == s.calls[c].begun
           && t.finished == s.finished && t.fibers == s.fibers
           && CanRun(t, w, IoDone) && CanRun(t, w, IoTimer) && !CanRun(t, w, IoWake)
         else
           && c !in t.calls && Self(t, w).io == None
           && t.finished == s.finished + [IoReturn(c, s.calls[c], s.now, TimedOut)]
  {
    hide IoReturnStep;
    WokenReturns(s, w);
  }

  lemma WokenReturns(s: State, w: WorkerId)
    requires CanRun(s, w, IoWake)
    ensures
      var c, t := Self(s, w).io.value, IoReturnStep(s, w, TimedOut);
      && t.slots == s.slots && t.queue == s.queue && t.workers == s.workers
      && t.fibers == s.fibers[Current(s, w) := Self(s, w).(io := None)]
      && (t.timers == if s.calls[c].timer.Some? then s.timers - {s.calls[c].timer.value} else s.timers)
      && t.calls == s.calls - {c} && t.finished == s.finished + [IoReturn(c, s.calls[c], s.now, TimedOut)]
  {}

  // ----- where a call comes from -----

  /** Step `i` of the run began call `c`, with the slot and the timeout that the record has. */
  ghost predicate BegunAt(s: State, run: seq<Step>, i: nat, c: CallId, call: IoCall)
    requires i < |run|
  {
    && Legal(s, run[..i]) && run[i].InFiber? && run[i].act == IoBegin(call.slot, call.timeout)
    && After(s, run[..i]).now == call.begun && After(s, run[..i]).nextCall == c
  }

  ghost predicate Begun(s: State, run: seq<Step>, c: CallId, call: IoCall) {
    exists i :: 0 <= i < |run| && BegunAt(s, run, i, c, call)
  }

  ghost predicate AllBegun(s: State, run: seq<Step>, at: State) {
    && (forall c :: c in at.calls ==> Begun(s, run, c, at.calls[c]))
    && (forall r :: r in at.finished ==> Begun(s, run, r.id, r.call))
  }

  predicate SameCall(a: IoCall, b: IoCall) {
    a.slot == b.slot && a.timeout == b.timeout && a.begun == b.begun
  }

  lemma BegunLonger(s: State, run: seq<Step>, step: Step, c: CallId, call: IoCall, call': IoCall)
    requires Begun(s, run, c, call) && SameCall(call, call')
    ensures Begun(s, run + [step], c, call')
  {
    hide Legal, After;
    var i :| 0 <= i < |run| && BegunAt(s, run, i, c, call);
    assert (run + [step])[..i] == run[..i];
    assert BegunAt(s, run + [step], i, c, call');
  }

  lemma BegunNow(s: State, run: seq<Step>, step: Step, call: IoCall)
    requires Legal(s, run) && step.InFiber? && step.act == IoBegin(call.slot, call.timeout) && After(s, run).now == call.begun
    ensures Begun(s, run + [step], After(s, run).nextCall, call)
  {
    hide Legal, After;
    assert (run + [step])[..|run|] == run;
    assert BegunAt(s, run + [step], |run|, After(s, run).nextCall, call);
  }

  lemma InsideOrigin(s: State, w: WorkerId, step: FiberStep, c: CallId)
    requires CanRun(s, w, step) && c in RunStep(s, w, step).calls
    ensures var call := RunStep(s, w, step).calls[c];
            || (c in s.calls && SameCall(s.calls[c], call))
            || (step == IoBegin(call.slot, call.timeout) && call.begun == s.now && c == s.nextCall)
  {
    hide Trigger;
    if step.RunTimeout? {
      var c, k := Self(s, w).body.value.call, Self(s, w).body.value.slot;
      if c in s.calls {
        TriggerFrame(ClearBody(s, w).(calls := s.calls[c := s.calls[c].(timedOutAt := Some(s.now))]), k);
      }
    }
  }

  lemma BegunNext(s: State, run: seq<Step>, step: Step)
    requires Legal(s, run) && AllBegun(s, run, After(s, run)) && Enabled(After(s, run), step)
    ensures AllBegun(s, run + [step], Next(After(s, run), step))
  {
    hide Legal, After, CanWork, WorkStep, CanRun, RunStep, CanAct, ActStep, Begun;
    var a, b := After(s, run), Next(After(s, run), step);
    forall c | c in b.calls ensures Begun(s, run + [step], c, b.calls[c]) {
      if step.InFiber? {
        InsideOrigin(a, step.w, step.act, c);
      } else {
        Lambdas.SameRecords(a, step);
      }
      if c in a.calls && SameCall(a.calls[c], b.calls[c]) {
        BegunLonger(s, run, step, c, a.calls[c], b.calls[c]);
      } else {
        BegunNow(s, run, step, b.calls[c]);
      }
    }
    Timeouts.TableMovesNext(a, step);
    forall r | r in b.finished ensures Begun(s, run + [step], r.id, r.call) {
      var i :| 0 <= i < |b.finished| && b.finished[i] == r;
      BegunLonger(s, run, step, r.id, r.call, r.call);
    }
  }

  /** Main result: every call, live or finished, goes back to a step that began it at the time, on the slot
      and with the timeout that its record shows. */
  lemma {:induction false} CallsWereBegun(n: nat, now: nat, run: seq<Step>)
    requires Legal(Start(n, now), run)
    ensures AllBegun(Start(n, now), run, After(Start(n, now), run))
    decreases |run|
  {
    hide Enabled, Next, Begun;
    var s := Start(n, now);
    if run != [] {
      var front, step := run[..|run| - 1], run[|run| - 1];
      assert run == front + [step];
      Timeouts.LastStep(s, front, step);
      CallsWereBegun(n, now, front);
      BegunNext(s, front, step);
    }
  }

  // ----- the timer of an attempt -----

  /** The deadline is the call's timeout, counted from a moment of the call. */
  ghost predicate InWindow(next: nat, call: IoCall, now: nat) {
    call.timeout.Some? && exists t :: call.begun <= t <= now && next == Deadline(t, call.timeout.value)
  }

  ghost predicate Windows(s: State) {
    forall id :: id in s.timers && s.timers[id].cb.Timeout? && s.timers[id].cb.call in s.calls ==>
      InWindow(s.timers[id].next, s.calls[s.timers[id].cb.call], s.now)
  }

  lemma WindowLater(next: nat, call: IoCall, call': IoCall, now: nat, later: nat)
    requires InWindow(next, call, now) && SameCall(call, call') && now <= later
    ensures InWindow(next, call', later)
  {
    var t :| call.begun <= t <= now && next == Deadline(t, call.timeout.value);
    assert Deadline(t, call'.timeout.value) == next;
  }

  lemma OldTimers(s: State, w: WorkerId, step: FiberStep, id: nat)
    requires CanRun(s, w, step) && (step.IoDone? || step.IoAdd? || step.IoWake?) && id in RunStep(s, w, step).timers
    ensures id in s.timers && RunStep(s, w, step).timers[id] == s.timers[id]
  {}

  lemma AttemptTimer(s: State, w: WorkerId, id: nat)
    requires CanRun(s, w, IoTimer) && id in RunStep(s, w, IoTimer).timers && s.nextTimer !in s.timers
    ensures var t, c := RunStep(s, w, IoTimer), Self(s, w).io.value;
            || (id in s.timers && t.timers[id] == s.timers[id])
            || (s.calls[c].timeout.Some? && t.timers[id].cb == Timeout(c, s.calls[c].slot)
                && t.timers[id].next == Deadline(s.now, s.calls[c].timeout.value))
  {}

  /** A timer with a lambda is an old one, or the one that this attempt starts. */
  lemma InsideTimers(s: State, w: WorkerId, step: FiberStep, id: nat)
    requires CanRun(s, w, step) && s.nextTimer !in s.timers
    requires id in RunStep(s, w, step).timers && RunStep(s, w, step).timers[id].cb.Timeout?
    ensures Runs(s, w)
    ensures var t := RunStep(s, w, step);
            || (id in s.timers && t.timers[id] == s.timers[id])
            || (step == IoTimer && Self(s, w).io.Some? && t.timers[id].cb.call == Self(s, w).io.value
                && t.timers[id].cb.call in s.calls && s.calls[t.timers[id].cb.call].timeout.Some?
                && t.timers[id].next == Deadline(s.now, s.calls[t.timers[id].cb.call].timeout.value))
  {
    hide Trigger, IoReturnStep, IoTimerStep, IoAddStep, IoWakeStep, Deadline;
    match step {
      case RunTimeout(_) =>
        var c, k := Self(s, w).body.value.call, Self(s, w).body.value.slot;
        if c in s.calls {
          TriggerFrame(ClearBody(s, w).(calls := s.calls[c := s.calls[c].(timedOutAt := Some(s.now))]), k);
        }
      case IoTimer => AttemptTimer(s, w, id);
      case IoDone => OldTimers(s, w, step, id);
      case IoAdd(_) => OldTimers(s, w, step, id);
      case IoWake => OldTimers(s, w, step, id);
      case _ =>
    }
  }

  lemma ExpireTimers(s: State, order: seq<nat>, id: nat)
    requires CallTimers(s.timers, s.calls, s.nextTimer, s.now) && ExpiryOrder(s, order)
    requires id in ExpireStep(s, order).timers && ExpireStep(s, order).timers[id].cb.Timeout?
    ensures id in s.timers && ExpireStep(s, order).timers[id] == s.timers[id]
  {}

  lemma DispatchTimers(s: State, w: WorkerId, spare: FiberId)
    requires CanDispatch(s, w, spare)
    ensures DispatchStep(s, w, spare).timers == s.timers
  {
    match s.workers[w].pc.task.work
    case FiberWork(f) => assert DispatchStep(s, w, spare).timers == s.timers;
    case CallWork(_) =>
  }

  lemma WorkTimers(s: State, w: WorkerId, step: WorkerStep, id: nat)
    requires CallTimers(s.timers, s.calls, s.nextTimer, s.now) && CanWork(s, w, step)
    requires id in WorkStep(s, w, step).timers && WorkStep(s, w, step).timers[id].cb.Timeout?
    ensures id in s.timers && WorkStep(s, w, step).timers[id] == s.timers[id]
  {
    hide CallTimers, ExpiryOrder, Stopping, ScanStep, DispatchStep, PostRunStep, ExpireStep, TriggerBoth;
    match step
    case IdleReady(fd, events, _) => TriggerBothFrame(s, fd, events);
    case IdleExpire(order) => ExpireTimers(s, order, id);
    case Scan => Sleeps.ScanTimers(s, w);
    case Dispatch(spare) => DispatchTimers(s, w, spare);
    case PostRun => Sleeps.PostRunTimers(s, w);
    case _ =>
  }

  lemma ActTimers(s: State, action: Action, id: nat)
    requires CanAct(s, action) && id in ActStep(s, action).timers && ActStep(s, action).timers[id].cb.Timeout?
    ensures id in s.timers && ActStep(s, action).timers[id] == s.timers[id]
  {
    hide Trigger, TriggerBoth, NoTicket, NotOnCpu, NotCbFiber;
    if action.CancelEvent? {
      TriggerFrame(s, action.slot);
    } else if action.CancelAll? {
      TriggerBothFrame(s, action.fd, {Read, Write});
    }
  }

  /** Outside fibers no timer gets a lambda. */
  lemma OutsideTimers(s: State, step: Step, id: nat)
    requires CallTimers(s.timers, s.calls, s.nextTimer, s.now) && Enabled(s, step) && !step.InFiber?
    requires id in Next(s, step).timers && Next(s, step).timers[id].cb.Timeout?
    ensures id in s.timers && Next(s, step).timers[id] == s.timers[id]
  {
    hide CallTimers, CanWork, WorkStep, CanAct, ActStep;
    match step
    case Tick(_) =>
    case OnWorker(w, work) => WorkTimers(s, w, work, id);
    case Program(_, action) => ActTimers(s, action, id);
  }

  lemma WindowNew(s: State, call: IoCall)
    requires call.timeout.Some? && call.begun <= s.now
    ensures InWindow(Deadline(s.now, call.timeout.value), call, s.now)
  {}

  lemma KnownTables(s: State, c: CallId)
    requires CallInv(s)
    ensures CallTimers(s.timers, s.calls, s.nextTimer, s.now) && s.nextTimer !in s.timers
    ensures c in s.calls ==> c < s.nextCall && s.calls[c].begun <= s.now
    ensures forall id :: id in s.timers && s.timers[id].cb.Timeout? ==> s.timers[id].cb.call < s.nextCall
  {
    hide Owners, BodiesRun, QueueRipe, HandsRipe, BodiesRipe, SlotsPlain, Finished;
  }

  lemma WindowAfter(s: State, step: Step, id: nat)
    requires Inv(s) && Windows(s) && Enabled(s, step)
    requires var t := Next(s, step); id in t.timers && t.timers[id].cb.Timeout? && t.timers[id].cb.call in t.calls
    ensures var t := Next(s, step); InWindow(t.timers[id].next, t.calls[t.timers[id].cb.call], t.now)
  {
    hide TicketInv, CallInv, CountActive, CallTimers, CanWork, WorkStep, CanRun, RunStep, CanAct, ActStep, InWindow, Deadline;
    var t := Next(s, step);
    var c := t.timers[id].cb.call;
    KnownTables(s, c);
    Sleeps.ClockKeeps(s, step);
    if step.InFiber? {
      InsideTimers(s, step.w, step.act, id);
      InsideOrigin(s, step.w, step.act, c);
    } else {
      OutsideTimers(s, step, id);
      Lambdas.SameRecords(s, step);
    }
    if id in s.timers && t.timers[id] == s.timers[id] {
      WindowLater(s.timers[id].next, s.calls[c], t.calls[c], s.now, t.now);
    } else {
      WindowNew(s, s.calls[c]);
      WindowLater(t.timers[id].next, s.calls[c], t.calls[c], s.now, t.now);
    }
  }

  lemma WindowsNext(s: State, step: Step)
    requires Inv(s) && Windows(s) && Enabled(s, step)
    ensures Windows(Next(s, step))
  {
    hide Inv, Enabled, Next, InWindow;
    var t := Next(s, step);
    forall id | id in t.timers && t.timers[id].cb.Timeout? && t.timers[id].cb.call in t.calls
      ensures InWindow(t.timers[id].next, t.calls[t.timers[id].cb.call], t.now)
    {
      WindowAfter(s, step, id);
    }
  }

  lemma {:induction false} WindowsOverRun(s: State, run: seq<Step>)
    requires Inv(s) && Windows(s) && Legal(s, run)
    ensures Windows(After(s, run))
    decreases |run|
  {
    hide Inv, Windows, Enabled, Next;
    if run != [] {
      NextKeeps(s, run[0]);
      WindowsNext(s, run[0]);
      WindowsOverRun(Next(s, run[0]), run[1..]);
    }
  }

  /** Main result: in every reachable state, the timer of a live call is due exactly its full timeout after
      a moment that lies between the beginning of the call and now. */
  lemma TimerIsInWindow(s: State, id: nat)
    requires Reachable(s) && id in s.timers && s.timers[id].cb.Timeout? && s.timers[id].cb.call in s.calls
    ensures
      var call := s.calls[s.timers[id].cb.call];
      call.timeout.Some? && exists t :: call.begun <= t <= s.now && s.timers[id].next == Deadline(t, call.timeout.value)
  {
    hide Inv, Legal, After;
    var n: nat, now: nat, run: seq<Step> :| Legal(Start(n, now), run) && After(Start(n, now), run) == s;
    StartInv(n, now);
    WindowsOverRun(Start(n, now), run);
  }
}
