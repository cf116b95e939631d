/** The runtime's guarantees, read off the invariant: unique wake-ups, exclusive execution,
    assertions, fiber lifecycle, first-come-first-served queueing and no lost wake-up. */
module Guarantees {
  import opened Wrappers
  import opened Tasks
  import opened Runtime
  import opened Pending
  import opened Tickets
  import opened TicketSteps
  import opened Calls
  import opened Safety

  // ----- one wake-up, one worker -----

  /** The wake-ups counted in the part of the state that contains a place. */
  ghost function PartOf(s: State, at: Place): TicketBag {
    match at
    case Queued(_) => OfQueue(s.queue)
    case InSlot(_) => OfSlots(s.slots)
    case InTimer(_) => OfTimers(s.timers)
    case InHand(_) => OfHands(s.workers)
    case InBody(_) => OfBodies(s.fibers)
  }

  lemma PlaceCounts(s: State, f: FiberId, at: Place)
    requires TicketAt(s, f, at)
    ensures f in PartOf(s, at)
  {
    hide OfSeq, OfMap;
    match at
    case Queued(i) => SeqCounts(QueueView(s.queue), i, f);
    case InSlot(k) => MapCounts(SlotView(s.slots), k, f);
    case InTimer(id) => MapCounts(TimerView(s.timers), id, f);
    case InHand(w) => SeqCounts(HandView(s.workers), w, f);
    case InBody(g) => MapCounts(BodyView(s.fibers), g, f);
  }

  lemma SeqCounts(q: seq<Option<FiberId>>, i: nat, f: FiberId)
    requires i < |q| && q[i] == Some(f)
    ensures f in OfSeq(q)
  {
    hide OfSeq;
    OfSeqSplit(q, i);
  }

  lemma MapCounts<K>(m: map<K, Option<FiberId>>, k: K, f: FiberId)
    requires k in m && m[k] == Some(f)
    ensures f in OfMap(m)
  {
    hide OfMap;
    OfMapPick(m, k);
  }

  predicate SamePart(a: Place, b: Place) {
    || (a.Queued? && b.Queued?) || (a.InSlot? && b.InSlot?) || (a.InTimer? && b.InTimer?)
    || (a.InHand? && b.InHand?) || (a.InBody? && b.InBody?)
  }

  lemma PlacesCountTwice(s: State, f: FiberId, a: Place, b: Place)
    requires TicketAt(s, f, a) && TicketAt(s, f, b) && a != b && SamePart(a, b)
    ensures PartOf(s, a)[f] >= 2
  {
    match a
    case Queued(i) => OfSeqTwice(QueueView(s.queue), if i < b.index then i else b.index, if i < b.index then b.index else i, f);
    case InSlot(k) => OfMapTwice(SlotView(s.slots), k, b.slot, f);
    case InTimer(id) => OfMapTwice(TimerView(s.timers), id, b.id, f);
    case InHand(w) => OfSeqTwice(HandView(s.workers), if w < b.w then w else b.w, if w < b.w then b.w else w, f);
    case InBody(g) => OfMapTwice(BodyView(s.fibers), g, b.runner, f);
  }

  lemma PartCounts(s: State, at: Place)
    ensures PartOf(s, at) <= AllTickets(s)
  {
    hide OfQueue, OfHands, OfSlots, OfTimers, OfBodies;
  }

  /** A wake-up of `f` is counted exactly when some place holds one. */
  lemma PendingSomewhere(s: State, f: FiberId)
    ensures f in AllTickets(s) <==> exists at :: TicketAt(s, f, at)
  {
    hide TicketAt, AllTickets, PartOf;
    if at :| TicketAt(s, f, at) {
      PlaceCounts(s, f, at);
      PartCounts(s, at);
    } else {
      NoTicketNotCounted(s, f);
    }
  }

  /** Main safety result, first half: wherever wake-ups of one fiber are pending, it is one place. */
  lemma AtMostOneTicket(s: State, f: FiberId, a: Place, b: Place)
    requires Reachable(s) && TicketAt(s, f, a) && TicketAt(s, f, b)
    ensures a == b
  {
    hide Reachable, Cpu, CallInv, TicketAt, OfQueue, OfHands, OfSlots, OfTimers, OfBodies, TimersOnce;
    ReachableInv(s);
    PlaceCounts(s, f, a);
    PlaceCounts(s, f, b);
    assert AllTickets(s)[f] <= 1;
    if a != b && SamePart(a, b) {
      PlacesCountTwice(s, f, a, b);
    }
  }

  /** Main safety result, second half: no fiber is ever on two workers, not even while switching out. */
  lemma NeverOnTwoWorkers(s: State, w: WorkerId, w': WorkerId)
    requires Reachable(s) && w < |s.workers| && w' < |s.workers|
    requires s.workers[w].OnCpu().Some? && s.workers[w].OnCpu() == s.workers[w'].OnCpu()
    ensures w == w'
  {
    hide Reachable, CallInv, AllTickets, Unique, TimersOnce;
    ReachableInv(s);
  }

  /** A wake-up is only ever acted on for a fiber that is on no worker and not executing. */
  lemma TakenFiberIsParked(s: State, w: WorkerId)
    requires Reachable(s) && w < |s.workers| && HoldsFiber(s.workers[w])
    ensures
      var f := s.workers[w].pc.task.work.fiber;
      && f in s.fibers && s.fibers[f].state != Exec
      && (forall w' :: 0 <= w' < |s.workers| ==> s.workers[w'].OnCpu() != Some(f))
  {
    hide Reachable, CallInv, AllTickets, Unique, TimersOnce;
    ReachableInv(s);
  }

  // ----- the source's assertions -----

  predicate Resettable(state: FiberState) {
    state in {Term, Except, Init}
  }

  /** The assertions evaluated by a step: Fiber::reset, Fiber::swapIn, both yields, addEvent. */
  ghost predicate AssertionsHold(s: State, step: Step)
    requires Enabled(s, step)
  {
    match step
    case OnWorker(w, Dispatch(spare)) =>
      (match s.workers[w].pc.task.work
       case FiberWork(f) => s.fibers[f].state != Exec
       case CallWork(_) => s.workers[w].cbFiber.Some? ==>
         s.workers[w].cbFiber.value in s.fibers && Resettable(s.fibers[s.workers[w].cbFiber.value].state))
    case OnWorker(w, PostRun) =>
      s.workers[w].pc.viaCb ==> s.workers[w].cbFiber == Some(s.workers[w].pc.fiber)
    case InFiber(w, act) => Self(s, w).state == Exec
    case _ => true
  }

  lemma AssertionsNeverFail(s: State, step: Step)
    requires Reachable(s) && Enabled(s, step)
    ensures AssertionsHold(s, step)
  {
    hide Reachable, CallInv, AllTickets, Unique, TimersOnce;
    ReachableInv(s);
  }

  /** At the loop head a worker's callback fiber is null or INIT. */
  lemma CbFiberAtLoopHead(s: State, w: WorkerId)
    requires Reachable(s) && w < |s.workers| && s.workers[w].pc == Scanning && s.workers[w].cbFiber.Some?
    ensures s.workers[w].cbFiber.value in s.fibers && s.fibers[s.workers[w].cbFiber.value].state == Init
  {
    hide Reachable, CallInv, AllTickets, Unique, TimersOnce;
    ReachableInv(s);
  }

  // ----- the life of a fiber -----

  /** INIT, HOLD and READY fibers are swapped in; an executing fiber parks, yields or ends; an ended
      callback fiber is reset. */
  predicate LifeEdge(a: FiberState, b: FiberState) {
    || a == b
    || (a in {Init, Hold, Ready} && b == Exec)
    || (a == Exec && b in {Hold, Ready, Term, Except})
    || (a in {Term, Except} && b == Init)
  }

  ghost predicate LivesOn(fs: Fibers, fs': Fibers) {
    forall f :: f in fs ==> f in fs' && LifeEdge(fs[f].state, fs'[f].state)
  }

  lemma WorkLives(s: State, w: WorkerId, step: WorkerStep)
    requires TicketInv(s) && CanWork(s, w, step)
    ensures LivesOn(s.fibers, WorkStep(s, w, step).fibers)
  {
    hide TicketInv, TriggerBoth, ExpiryOrder, LivesOn, DispatchStep, PostRunStep, ExpireStep, ScanStep, Stopping;
    LivesSame(s.fibers);
    match step
    case IdleReady(fd, events, _) => TriggerBothFrame(s, fd, events);
    case Scan => ScanLives(s, w);
    case PostRun => PostRunLives(s, w);
    case Dispatch(spare) => DispatchLives(s, w, spare);
    case IdleExpire(order) => OrderKnown(s, order); ExpireLives(s, order);
    case _ =>
  }

  lemma LivesSame(fs: Fibers)
    ensures LivesOn(fs, fs)
  {}

  lemma ScanLives(s: State, w: WorkerId)
    requires w < |s.workers|
    ensures ScanStep(s, w).fibers == s.fibers
  {
    hide FirstEligible, ExecIds, RemoveAt;
  }

  lemma ExpireLives(s: State, order: seq<nat>)
    requires forall i :: 0 <= i < |order| ==> order[i] in s.timers
    ensures ExpireStep(s, order).fibers == s.fibers
  {}

  lemma PostRunLives(s: State, w: WorkerId)
    requires TicketInv(s) && CanPostRun(s, w)
    ensures LivesOn(s.fibers, PostRunStep(s, w).fibers)
  {
    hide TicketInv;
    ReturnedState(s, w);
  }

  lemma DispatchLives(s: State, w: WorkerId, spare: FiberId)
    requires TicketInv(s) && CanDispatch(s, w, spare)
    ensures LivesOn(s.fibers, DispatchStep(s, w, spare).fibers)
  {
    hide TicketInv;
    if s.workers[w].pc.task.work.CallWork? {
      CbFiberIdle(s, w, spare);
    } else {
      HeldFiberIdle(s, w);
    }
  }

  lemma ReturnedState(s: State, w: WorkerId)
    requires TicketInv(s) && CanPostRun(s, w)
    ensures s.fibers[s.workers[w].pc.fiber].state in {Exec, Ready, Term, Except}
  {
    hide AllTickets, Unique, TimersOnce;
  }

  lemma HeldFiberIdle(s: State, w: WorkerId)
    requires TicketInv(s) && w < |s.workers| && HoldsFiber(s.workers[w])
    ensures s.workers[w].pc.task.work.fiber in s.fibers && s.fibers[s.workers[w].pc.task.work.fiber].state != Exec
  {
    hide AllTickets, Unique, TimersOnce;
  }

  lemma TimeoutLives(s: State, w: WorkerId, ok: bool)
    requires RunsBody(s, w) && Self(s, w).body.value.Timeout?
    ensures LivesOn(s.fibers, RunTimeoutStep(s, w, ok).fibers)
  {
    hide Trigger;
    var c, k := Self(s, w).body.value.call, Self(s, w).body.value.slot;
    if c in s.calls {
      TriggerFrame(ClearBody(s, w).(calls := s.calls[c := s.calls[c].(timedOutAt := Some(s.now))]), k);
    }
  }

  lemma LivesWith(fs: Fibers, f: FiberId, x: Fiber)
    requires f in fs && LifeEdge(fs[f].state, x.state)
    ensures LivesOn(fs, fs[f := x]) && LivesOn(fs, fs)
  {}

  lemma IoReturnLives(s: State, w: WorkerId, result: IoResult)
    requires Runs(s, w) && Self(s, w).io.Some? && Self(s, w).io.value in s.calls
    ensures LivesOn(s.fibers, IoReturnStep(s, w, result).fibers)
  {}

  lemma IoLives(s: State, w: WorkerId, step: FiberStep)
    requires CanRun(s, w, step) && (step.IoTimer? || step.IoAdd? || step.IoWake?)
    ensures LivesOn(s.fibers, RunStep(s, w, step).fibers)
  {
    hide LivesOn, IoReturnStep;
    LivesWith(s.fibers, Current(s, w), Self(s, w).(armed := true));
    IoReturnLives(s, w, AddFailed);
    IoReturnLives(s, w, TimedOut);
  }

  lemma LeaveLives(s: State, w: WorkerId, state: FiberState)
    requires Runs(s, w) && LifeEdge(Self(s, w).state, state)
    ensures LivesOn(s.fibers, Leave(s, w, state).fibers)
  {}

  lemma RunLives(s: State, w: WorkerId, step: FiberStep)
    requires TicketInv(s) && CanRun(s, w, step)
    ensures LivesOn(s.fibers, RunStep(s, w, step).fibers)
  {
    hide TicketInv, LivesOn, Leave, RunTimeoutStep, IoReturnStep, IoTimerStep, IoAddStep, IoWakeStep;
    SelfIsExec(s, w);
    var f := Current(s, w);
    match step
    case RunTimeout(ok) => TimeoutLives(s, w, ok);
    case RunResume => LivesWith(s.fibers, f, Self(s, w).(body := None));
    case IoBegin(_, _) => LivesWith(s.fibers, f, Self(s, w).(io := Some(s.nextCall)));
    case IoDone => IoReturnLives(s, w, Completed);
    case IoTimer => IoLives(s, w, step);
    case IoAdd(_) => IoLives(s, w, step);
    case IoWake => IoLives(s, w, step);
    case YieldReady => LeaveLives(s, w, Ready);
    case YieldHold => LeaveLives(s, w, Exec);
    case Finish(threw) => LeaveLives(s, w, if threw then Except else Term);
    case _ => LivesWith(s.fibers, f, Self(s, w).(armed := true));
  }

  lemma ActLives(s: State, action: Action)
    requires CanAct(s, action)
    ensures LivesOn(s.fibers, ActStep(s, action).fibers)
  {
    hide Trigger, TriggerBoth, NoTicket, NotOnCpu, NotCbFiber;
    if action.CancelEvent? {
      TriggerFrame(s, action.slot);
    } else if action.CancelAll? {
      TriggerBothFrame(s, action.fd, {Read, Write});
    }
  }

  /** Every fiber's state only moves along the edges of the lifecycle. */
  lemma FiberLifecycle(s: State, step: Step)
    requires Reachable(s) && Enabled(s, step)
    ensures LivesOn(s.fibers, Next(s, step).fibers)
  {
    hide Reachable, TicketInv, CallInv, CanWork, WorkStep, CanRun, RunStep, CanAct, ActStep;
    ReachableInv(s);
    match step
    case OnWorker(w, work) => WorkLives(s, w, work);
    case InFiber(w, act) => RunLives(s, w, act);
    case Program(_, action) => ActLives(s, action);
    case Tick(_) =>
  }

  // ----- the queue -----

  /** The entry is pinned to another worker, or is a fiber that is still executing. */
  predicate NotFor(s: State, t: Task, w: WorkerId) {
    (t.thread.Some? && t.thread.value != w)
    || (t.work.FiberWork? && t.work.fiber in s.fibers && s.fibers[t.work.fiber].state == Exec)
  }

  /** A scan takes the earliest entry that is neither pinned to another worker nor still executing,
      leaving the others in order; every other step only appends to the queue. */
  lemma QueueDiscipline(s: State, step: Step)
    requires Enabled(s, step)
    ensures
      var s' := Next(s, step);
      if step.OnWorker? && step.work.Scan? && exists i :: 0 <= i < |s.queue| && !NotFor(s, s.queue[i], step.w) then
        exists k: nat :: k < |s.queue| && !NotFor(s, s.queue[k], step.w)
          && (forall i :: 0 <= i < k ==> NotFor(s, s.queue[i], step.w))
          && s'.queue == s.queue[..k] + s.queue[k + 1..]
          && s'.workers[step.w].pc == Holding(s.queue[k])
          && (s.queue[k].thread == None || s.queue[k].thread == Some(step.w))
      else
        && s.queue <= s'.queue
        && (step.OnWorker? && step.work.Scan? ==>
              s'.queue == s.queue && s'.workers[step.w].pc == if s.workers[step.w].idleDone then Exited else Idling)
  {
    hide CanWork, WorkStep, CanRun, RunStep, CanAct, ActStep, ExecIds;
    NotForEligible(s, if step.OnWorker? then step.w else 0);
    if step.OnWorker? && step.work.Scan? {
      ScanEmpty(s, step.w);
    }
    match step
    case OnWorker(w, work) => WorkQueue(s, w, work);
    case InFiber(w, act) => RunQueue(s, w, act);
    case Program(_, action) => ActQueue(s, action);
    case Tick(_) =>
  }

  lemma ScanEmpty(s: State, w: WorkerId)
    requires CanWork(s, w, Scan)
    ensures
      FirstEligible(s.queue, w, ExecIds(s)) == |s.queue| ==>
        && WorkStep(s, w, Scan).queue == s.queue && w < |WorkStep(s, w, Scan).workers|
        && WorkStep(s, w, Scan).workers[w].pc == if s.workers[w].idleDone then Exited else Idling
  {
    hide ExecIds, RemoveAt, FirstEligible;
  }

  lemma NotForEligible(s: State, w: WorkerId)
    ensures forall t :: Eligible(t, w, ExecIds(s)) <==> !NotFor(s, t, w)
  {}

  lemma WorkQueue(s: State, w: WorkerId, step: WorkerStep)
    requires CanWork(s, w, step)
    ensures
      var k := FirstEligible(s.queue, w, ExecIds(s));
      if step.Scan? && k < |s.queue| then
        WorkStep(s, w, step).queue == RemoveAt(s.queue, k) && WorkStep(s, w, step).workers[w].pc == Holding(s.queue[k])
      else s.queue <= WorkStep(s, w, step).queue
  {
    hide TriggerBoth, ExpiryOrder, RemoveAt;
    if step.IdleReady? {
      TriggerBothFrame(s, step.fd, step.events);
    }
  }

  lemma RunQueue(s: State, w: WorkerId, step: FiberStep)
    requires CanRun(s, w, step)
    ensures s.queue <= RunStep(s, w, step).queue
  {
    hide Trigger;
    if step.RunTimeout? {
      var c, k := Self(s, w).body.value.call, Self(s, w).body.value.slot;
      if c in s.calls {
        TriggerFrame(ClearBody(s, w).(calls := s.calls[c := s.calls[c].(timedOutAt := Some(s.now))]), k);
      }
    }
  }

  lemma ActQueue(s: State, action: Action)
    requires CanAct(s, action)
    ensures s.queue <= ActStep(s, action).queue
  {
    hide Trigger, TriggerBoth, NoTicket, NotOnCpu, NotCbFiber;
    if action.CancelEvent? {
      TriggerFrame(s, action.slot);
    } else if action.CancelAll? {
      TriggerBothFrame(s, action.fd, {Read, Write});
    }
  }

  /** The task a step takes out of the queue. */
  function TakenBy(s: State, step: Step): multiset<Task> {
    if step.OnWorker? && step.work.Scan? && FirstEligible(s.queue, step.w, ExecIds(s)) < |s.queue|
    then multiset{s.queue[FirstEligible(s.queue, step.w, ExecIds(s))]} else multiset{}
  }

  /** The tasks a step appends to the queue. */
  ghost function EnteredBy(s: State, step: Step): multiset<Task>
    requires Enabled(s, step)
  {
    if |Next(s, step).queue| > |s.queue| then multiset(Next(s, step).queue[|s.queue|..]) else multiset{}
  }

  ghost function Taken(s: State, run: seq<Step>): multiset<Task>
    requires Legal(s, run)
    decreases |run|
  {
    if run == [] then multiset{} else TakenBy(s, run[0]) + Taken(Next(s, run[0]), run[1..])
  }

  ghost function Entered(s: State, run: seq<Step>): multiset<Task>
    requires Legal(s, run)
    decreases |run|
  {
    if run == [] then multiset{} else EnteredBy(s, run[0]) + Entered(Next(s, run[0]), run[1..])
  }

  lemma MultisetWithout(q: seq<Task>, k: nat)
    requires k < |q|
    ensures multiset(q) == multiset(RemoveAt(q, k)) + multiset{q[k]}
  {
    assert q == q[..k] + [q[k]] + q[k + 1..];
  }

  lemma StepConserves(s: State, step: Step)
    requires Enabled(s, step)
    ensures multiset(Next(s, step).queue) + TakenBy(s, step) == multiset(s.queue) + EnteredBy(s, step)
  {
    hide CanWork, WorkStep, CanRun, RunStep, CanAct, ActStep;
    var s' := Next(s, step);
    match step {
      case OnWorker(w, work) => WorkQueue(s, w, work);
      case InFiber(w, act) => RunQueue(s, w, act);
      case Program(_, action) => ActQueue(s, action);
      case Tick(_) =>
    }
    if TakenBy(s, step) != multiset{} {
      MultisetWithout(s.queue, FirstEligible(s.queue, step.w, ExecIds(s)));
    } else {
      assert s'.queue == s.queue + s'.queue[|s.queue|..];
    }
  }

  /** Over any run, what was scheduled is what workers took plus what is still queued. */
  lemma {:induction false} TasksConserved(s: State, run: seq<Step>)
    requires Legal(s, run)
    ensures multiset(After(s, run).queue) + Taken(s, run) == multiset(s.queue) + Entered(s, run)
    decreases |run|
  {
    hide Enabled, Next, TakenBy, EnteredBy;
    if run != [] {
      StepConserves(s, run[0]);
      TasksConserved(Next(s, run[0]), run[1..]);
      Rearrange(multiset(s.queue), TakenBy(s, run[0]), EnteredBy(s, run[0]), multiset(Next(s, run[0]).queue),
                Taken(Next(s, run[0]), run[1..]), Entered(Next(s, run[0]), run[1..]), multiset(After(s, run).queue));
    }
  }

  lemma Rearrange(q: multiset<Task>, t: multiset<Task>, e: multiset<Task>, q1: multiset<Task>,
                  t1: multiset<Task>, e1: multiset<Task>, q2: multiset<Task>)
    requires q1 + t == q + e && q2 + t1 == q1 + e1
    ensures q2 + (t + t1) == q + (e + e1)
  {
    forall x ensures (q2 + (t + t1))[x] == (q + (e + e1))[x] {
      assert (q1 + t)[x] == (q + e)[x];
      assert (q2 + t1)[x] == (q1 + e1)[x];
    }
  }

  /** activeThreadCount_ counts the workers that hold or run a task. */
  lemma ActiveCount(s: State)
    requires Reachable(s)
    ensures s.active == CountActive(s.workers)
  {
    hide Reachable, TicketInv, CallInv;
    ReachableInv(s);
  }
}
