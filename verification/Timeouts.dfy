/** Blocking calls: when a timeout may be reported, what caused it, and what a finished call leaves. */
module Timeouts {
  import opened Wrappers
  import opened Tasks
  import opened Runtime
  import opened Pending
  import opened Tickets
  import opened TicketSteps
  import opened Calls
  import opened Safety

  /** A reported timeout is never early, counted from the beginning of the call. */
  lemma TimeoutNotEarly(s: State, r: IoReturn)
    requires Reachable(s) && r in s.finished && r.result == TimedOut
    ensures r.call.timeout.Some?
    ensures r.at + r.call.timeout.value < TWO64 ==> r.call.begun + r.call.timeout.value <= r.at
  {
    hide Reachable, TicketInv, Owners, BodiesRun, Records, CallTimers, QueueRipe, HandsRipe, BodiesRipe, SlotsPlain;
    ReachableInv(s);
  }

  /** The 64-bit deadline lies in the future exactly when the sum does not wrap; one that wraps is due at
      once. */
  lemma DeadlineExact(now: nat, ms: nat)
    requires now < TWO64 && ms < TWO64
    ensures now + ms <= Deadline(now, ms) <==> now + ms < TWO64
    ensures Deadline(now, ms) == if now + ms < 0x1_0000_0000_0000_0000 then now + ms else now + ms - 0x1_0000_0000_0000_0000
    ensures Deadline(1, TWO64 - 1) == 0
  {}

  /** The callback a worker is about to run as the whole of its fiber. */
  predicate RunsLambdaOf(s: State, step: Step, c: CallId) {
    && step.InFiber? && step.act.RunTimeout? && RunsBody(s, step.w)
    && Self(s, step.w).body.value.Timeout? && Self(s, step.w).body.value.call == c
  }

  /** Only the call's own timer lambda marks it as timed out, and it stamps the current time. */
  lemma OnlyOwnTimerCancels(s: State, step: Step, c: CallId)
    requires Enabled(s, step) && c in s.calls && c in Next(s, step).calls
    requires Next(s, step).calls[c].timedOutAt != s.calls[c].timedOutAt && c < s.nextCall
    ensures RunsLambdaOf(s, step, c) && Next(s, step).calls[c].timedOutAt == Some(s.now)
  {
    hide CanWork, WorkStep, CanAct, ActStep, RunStep, CanRun;
    match step
    case Tick(_) =>
    case OnWorker(w, work) => WorkSameCalls(s, w, work);
    case InFiber(w, act) => RunChangesCalls(s, w, act, c);
    case Program(_, action) => ActSameCalls(s, action);
  }

  lemma WorkSameCalls(s: State, w: WorkerId, step: WorkerStep)
    requires CanWork(s, w, step)
    ensures WorkStep(s, w, step).calls == s.calls && WorkStep(s, w, step).finished == s.finished
  {
    hide TriggerBoth, ExpiryOrder, Stopping, ScanStep, DispatchStep, PostRunStep, ExpireStep;
    match step
    case IdleReady(fd, events, _) => TriggerBothFrame(s, fd, events);
    case Scan => ScanSameCalls(s, w);
    case Dispatch(spare) => DispatchSameCalls(s, w, spare);
    case PostRun => PostRunSameCalls(s, w);
    case IdleExpire(order) => OrderKnown(s, order); ExpireSameCalls(s, order);
    case _ =>
  }

  lemma ScanSameCalls(s: State, w: WorkerId)
    requires w < |s.workers|
    ensures ScanStep(s, w).calls == s.calls && ScanStep(s, w).finished == s.finished
  {
    hide RemoveAt, FirstEligible, ExecIds;
  }

  lemma DispatchSameCalls(s: State, w: WorkerId, spare: FiberId)
    requires CanDispatch(s, w, spare)
    ensures DispatchStep(s, w, spare).calls == s.calls && DispatchStep(s, w, spare).finished == s.finished
  {}

  lemma PostRunSameCalls(s: State, w: WorkerId)
    requires CanPostRun(s, w)
    ensures PostRunStep(s, w).calls == s.calls && PostRunStep(s, w).finished == s.finished
  {}

  lemma ExpireSameCalls(s: State, order: seq<nat>)
    requires forall i :: 0 <= i < |order| ==> order[i] in s.timers
    ensures ExpireStep(s, order).calls == s.calls && ExpireStep(s, order).finished == s.finished
  {}

  lemma ActSameCalls(s: State, action: Action)
    requires CanAct(s, action)
    ensures ActStep(s, action).calls == s.calls && ActStep(s, action).finished == s.finished
  {
    hide Trigger, TriggerBoth, NoTicket, NotOnCpu, NotCbFiber;
    if action.CancelEvent? {
      TriggerFrame(s, action.slot);
    } else if action.CancelAll? {
      TriggerBothFrame(s, action.fd, {Read, Write});
    }
  }

  lemma RunChangesCalls(s: State, w: WorkerId, step: FiberStep, c: CallId)
    requires CanRun(s, w, step) && c in s.calls && c < s.nextCall
    ensures
      var calls := RunStep(s, w, step).calls;
      c in calls && calls[c].timedOutAt != s.calls[c].timedOutAt ==>
        RunsLambdaOf(s, InFiber(w, step), c) && calls[c].timedOutAt == Some(s.now)
  {
    hide Trigger;
    if step.RunTimeout? {
      var c, k := Self(s, w).body.value.call, Self(s, w).body.value.slot;
      if c in s.calls {
        TriggerFrame(ClearBody(s, w).(calls := s.calls[c := s.calls[c].(timedOutAt := Some(s.now))]), k);
      }
    }
  }

  /** A call returns from a fiber that has no pending wake-up anywhere, so in particular its slot is
      not registered for it, and none of the timers still set belongs to the call. */
  lemma ReturnLeavesNothing(s: State, w: WorkerId, step: FiberStep, id: nat)
    requires Reachable(s) && CanRun(s, w, step)
    requires step == IoDone || step == IoAdd(false)
          || (step == IoWake && s.calls[Self(s, w).io.value].timedOutAt.Some?)
    ensures
      var c, s' := Self(s, w).io.value, RunStep(s, w, step);
      && Current(s, w) !in AllTickets(s')
      && c !in s'.calls
      && (id in s'.timers ==> !(s'.timers[id].cb.Timeout? && s'.timers[id].cb.call == c))
  {
    hide Reachable, TicketInv, CallInv, RunStep, AllTickets;
    ReachableInv(s);
    RunTickets(s, w, step);
    RunCalls(s, w, step);
    ReturnEffect(s, w, step);
    SelfIsExec(RunStep(s, w, step), w);
    TimerIsLive(RunStep(s, w, step), id);
  }

  lemma ReturnEffect(s: State, w: WorkerId, step: FiberStep)
    requires CanRun(s, w, step)
    requires step == IoDone || step == IoAdd(false)
          || (step == IoWake && s.calls[Self(s, w).io.value].timedOutAt.Some?)
    ensures
      var c, s' := Self(s, w).io.value, RunStep(s, w, step);
      c !in s'.calls && Runs(s', w) && Current(s', w) == Current(s, w) && !Self(s', w).armed
  {}

  lemma TimerIsLive(s: State, id: nat)
    requires CallInv(s)
    ensures id in s.timers && s.timers[id].cb.Timeout? ==> s.timers[id].cb.call in s.calls
  {}

  /** A timer lambda that is run after its call returned does nothing: its weak pointer is dead. */
  lemma LeftoverIsInert(s: State, w: WorkerId, ok: bool, r: IoReturn)
    requires Reachable(s) && r in s.finished
    requires RunsBody(s, w) && Self(s, w).body.value.Timeout? && Self(s, w).body.value.call == r.id
    ensures RunTimeoutStep(s, w, ok) == ClearBody(s, w)
  {
    hide Reachable, TicketInv, Owners, BodiesRun, Records, CallTimers, QueueRipe, HandsRipe, BodiesRipe, SlotsPlain;
    ReachableInv(s);
  }

  // ----- every reported timeout goes back to a timer that ran -----

  lemma {:induction false} LastStep(s: State, run: seq<Step>, step: Step)
    requires Legal(s, run + [step])
    ensures Legal(s, run) && Enabled(After(s, run), step) && After(s, run + [step]) == Next(After(s, run), step)
    decreases |run|
  {
    hide Enabled, Next;
    if run == [] {
      assert run + [step] == [step];
    } else {
      assert (run + [step])[1..] == run[1..] + [step];
      LastStep(Next(s, run[0]), run[1..], step);
    }
  }

  /** At time `t` of the run, the timer lambda of call `c` was run. */
  ghost predicate Caused(s: State, run: seq<Step>, c: CallId, t: nat) {
    exists i :: 0 <= i < |run| && CausedAt(s, run, i, c, t)
  }

  ghost predicate CausedAt(s: State, run: seq<Step>, i: nat, c: CallId, t: nat)
    requires i < |run|
  {
    Legal(s, run[..i]) && RunsLambdaOf(After(s, run[..i]), run[i], c) && After(s, run[..i]).now == t
  }

  lemma CausedLonger(s: State, run: seq<Step>, step: Step, c: CallId, t: nat)
    requires Caused(s, run, c, t)
    ensures Caused(s, run + [step], c, t)
  {
    hide Legal, After, RunsLambdaOf;
    var i :| 0 <= i < |run| && CausedAt(s, run, i, c, t);
    assert (run + [step])[..i] == run[..i];
    assert CausedAt(s, run + [step], i, c, t);
  }

  lemma CausedNow(s: State, run: seq<Step>, step: Step, c: CallId)
    requires Legal(s, run) && RunsLambdaOf(After(s, run), step, c)
    ensures Caused(s, run + [step], c, After(s, run).now)
  {
    hide Legal, After, RunsLambdaOf;
    assert (run + [step])[..|run|] == run;
    assert CausedAt(s, run + [step], |run|, c, After(s, run).now);
  }

  /** Marks on live calls and on finished ones. */
  ghost predicate MarksCaused(s: State, run: seq<Step>, at: State) {
    && (forall c :: c in at.calls && at.calls[c].timedOutAt.Some? ==> Caused(s, run, c, at.calls[c].timedOutAt.value))
    && (forall i :: 0 <= i < |at.finished| && at.finished[i].result == TimedOut && at.finished[i].call.timedOutAt.Some? ==>
          Caused(s, run, at.finished[i].id, at.finished[i].call.timedOutAt.value))
  }

  /** A step adds calls unmarked, and finishes calls with the record they had. */
  ghost predicate TableMoves(s: State, s': State) {
    && (forall c :: c in s'.calls && c !in s.calls ==> s'.calls[c].timedOutAt == None)
    && (forall i :: 0 <= i < |s'.finished| ==>
          if i < |s.finished| then s'.finished[i] == s.finished[i]
          else s'.finished[i].id in s.calls && s'.finished[i].call == s.calls[s'.finished[i].id])
  }

  lemma RunTableMoves(s: State, w: WorkerId, step: FiberStep)
    requires CanRun(s, w, step)
    ensures TableMoves(s, RunStep(s, w, step))
  {
    hide Trigger;
    if step.RunTimeout? {
      var c, k := Self(s, w).body.value.call, Self(s, w).body.value.slot;
      if c in s.calls {
        TriggerFrame(ClearBody(s, w).(calls := s.calls[c := s.calls[c].(timedOutAt := Some(s.now))]), k);
      }
    }
  }

  lemma TableMovesNext(s: State, step: Step)
    requires Enabled(s, step)
    ensures TableMoves(s, Next(s, step))
  {
    hide CanWork, WorkStep, CanAct, ActStep, RunStep, CanRun;
    match step
    case Tick(_) =>
    case OnWorker(w, work) => WorkSameCalls(s, w, work);
    case InFiber(w, act) => RunTableMoves(s, w, act);
    case Program(_, action) => ActSameCalls(s, action);
  }

  lemma MarksNext(s: State, run: seq<Step>, step: Step)
    requires Legal(s, run) && MarksCaused(s, run, After(s, run)) && Enabled(After(s, run), step)
    requires CallInv(After(s, run))
    ensures MarksCaused(s, run + [step], Next(After(s, run), step))
  {
    hide Legal, After, Enabled, Next, Caused, CallInv, RunsLambdaOf;
    var a, b := After(s, run), Next(After(s, run), step);
    TableMovesNext(a, step);
    forall c | c in b.calls && b.calls[c].timedOutAt.Some?
      ensures Caused(s, run + [step], c, b.calls[c].timedOutAt.value)
    {
      if b.calls[c].timedOutAt == a.calls[c].timedOutAt {
        CausedLonger(s, run, step, c, b.calls[c].timedOutAt.value);
      } else {
        LiveBelow(a, c);
        OnlyOwnTimerCancels(a, step, c);
        CausedNow(s, run, step, c);
      }
    }
    forall i | 0 <= i < |b.finished| && b.finished[i].result == TimedOut && b.finished[i].call.timedOutAt.Some?
      ensures Caused(s, run + [step], b.finished[i].id, b.finished[i].call.timedOutAt.value)
    {
      CausedLonger(s, run, step, b.finished[i].id, b.finished[i].call.timedOutAt.value);
    }
  }

  lemma LiveBelow(s: State, c: CallId)
    requires CallInv(s) && c in s.calls
    ensures c < s.nextCall
  {}

  lemma {:induction false} MarksOverRun(n: nat, now: nat, run: seq<Step>)
    requires Legal(Start(n, now), run)
    ensures MarksCaused(Start(n, now), run, After(Start(n, now), run))
    decreases |run|
  {
    hide Enabled, Next, CallInv, TicketInv, Caused;
    var s := Start(n, now);
    if run != [] {
      var front, step := run[..|run| - 1], run[|run| - 1];
      assert run == front + [step];
      LastStep(s, front, step);
      MarksOverRun(n, now, front);
      StartInv(n, now);
      RunKeeps(s, front);
      MarksNext(s, front, step);
    }
  }

  /** A call reports a timeout only after its own timer's callback ran, at the time it is stamped with. */
  lemma TimeoutHasCause(n: nat, now: nat, run: seq<Step>, r: IoReturn)
    requires Legal(Start(n, now), run)
    requires r in After(Start(n, now), run).finished && r.result == TimedOut
    ensures r.call.timedOutAt.Some? && r.call.timedOutAt.value <= r.at
    ensures Caused(Start(n, now), run, r.id, r.call.timedOutAt.value)
  {
    hide Legal, After, Caused, TicketInv, Owners, BodiesRun, Records, CallTimers, QueueRipe, HandsRipe, BodiesRipe, SlotsPlain;
    MarksOverRun(n, now, run);
    StartInv(n, now);
    RunKeeps(Start(n, now), run);
  }
}
