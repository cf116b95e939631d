/** Every step of the runtime keeps the ticket invariant. */
module TicketSteps {
  import opened Wrappers
  import opened Tasks
  import opened Runtime
  import opened Pending
  import opened Tickets

  predicate At(s: State, w: WorkerId) {
    w < |s.workers|
  }

  lemma ScanTickets(s: State, w: WorkerId)
    requires At(s, w) && s.workers[w].pc == Scanning
    ensures AllTickets(ScanStep(s, w)) == AllTickets(s)
  {
    hide OfQueue, OfHands, OfSlots, OfTimers, OfBodies, RemoveAt, ExecIds, FirstEligible, AllTickets, ScanStep;
    var k, s' := FirstEligible(s.queue, w, ExecIds(s)), ScanStep(s, w);
    ScanShape(s, w);
    HandTakes(s.workers, w, s'.workers[w]);
    if k < |s.queue| {
      QueueBag(s.queue, k);
      Moved(s, s', One(TicketOf(s.queue[k].work)));
    } else {
      Stayed(s, s');
    }
  }

  lemma ScanShape(s: State, w: WorkerId)
    requires At(s, w) && s.workers[w].pc == Scanning
    ensures var k, s' := FirstEligible(s.queue, w, ExecIds(s)), ScanStep(s, w);
            && s'.slots == s.slots && s'.timers == s.timers && s'.fibers == s.fibers
            && s'.workers == s.workers[w := s'.workers[w]]
            && (if k < |s.queue| then s'.queue == RemoveAt(s.queue, k) && s'.workers[w].pc == Holding(s.queue[k])
                else s'.queue == s.queue && HandTicket(s'.workers[w]) == None)
  {
    hide RemoveAt, ExecIds, FirstEligible;
  }

  lemma HandTakes(ws: Workers, w: WorkerId, x: Worker)
    requires w < |ws| && HandTicket(ws[w]) == None
    ensures OfHands(ws[w := x]) == OfHands(ws) + One(HandTicket(x))
  {
    hide OfHands;
    HandBag(ws, w, x);
  }

  lemma QueueBag(q: seq<Task>, k: nat)
    requires k < |q|
    ensures OfQueue(q) == OfQueue(RemoveAt(q, k)) + One(TicketOf(q[k].work))
  {
    hide OfQueue;
    QueueTake(q, k);
    assert forall f :: OfQueue(q)[f] == (OfQueue(RemoveAt(q, k)) + One(TicketOf(q[k].work)))[f];
  }

  /** What a worker's hand holds, taken out of and put into the sum over all hands. */
  lemma HandBag(ws: Workers, w: WorkerId, x: Worker)
    requires w < |ws|
    ensures OfHands(ws[w := x]) + One(HandTicket(ws[w])) == OfHands(ws) + One(HandTicket(x))
  {
    hide OfHands;
    HandSet(ws, w, x);
    assert forall f :: (OfHands(ws[w := x]) + One(HandTicket(ws[w])))[f] == (OfHands(ws) + One(HandTicket(x)))[f];
  }

  lemma Moved(s: State, s': State, one: TicketBag)
    requires OfQueue(s.queue) == OfQueue(s'.queue) + one && OfHands(s'.workers) == OfHands(s.workers) + one
    requires s'.slots == s.slots && s'.timers == s.timers && s'.fibers == s.fibers
    ensures AllTickets(s') == AllTickets(s)
  {}

  lemma Stayed(s: State, s': State)
    requires OfHands(s'.workers) == OfHands(s.workers)
    requires s'.queue == s.queue && s'.slots == s.slots && s'.timers == s.timers && s'.fibers == s.fibers
    ensures AllTickets(s') == AllTickets(s)
  {}

  lemma ScanKeeps(s: State, w: WorkerId)
    requires TicketInv(s) && At(s, w) && s.workers[w].pc == Scanning
    ensures TicketInv(ScanStep(s, w))
  {
    hide Cpu, Unique, TimersOnce, OfQueue, OfHands, OfSlots, OfTimers, OfBodies;
    ScanTickets(s, w);
    var k := FirstEligible(s.queue, w, ExecIds(s));
    if k < |s.queue| {
      QueueTake(s.queue, k);
      CpuScan(s.workers, s.fibers, AllTickets(s), w, s.queue[k]);
    } else {
      CpuRest(s.workers, s.fibers, AllTickets(s), w, ScanStep(s, w).workers[w]);
    }
  }

  lemma OthersHold(ws: Workers, w: WorkerId, all: TicketBag, t: TicketBag)
    requires Unique(all) && OfHands(ws) <= all && w < |ws| && HandTicket(ws[w]).Some?
    requires all == t + multiset{HandTicket(ws[w]).value}
    ensures forall w' :: 0 <= w' < |ws| && w' != w && HoldsFiber(ws[w']) ==> ws[w'].pc.task.work.fiber in t
  {
    forall w' | 0 <= w' < |ws| && w' != w && HoldsFiber(ws[w']) ensures ws[w'].pc.task.work.fiber in t {
      var f := ws[w'].pc.task.work.fiber;
      HandHas(ws, w');
      assert f in all;
      if HandTicket(ws[w]) == Some(f) {
        OfSeqTwice(HandView(ws), if w < w' then w else w', if w < w' then w' else w, f);
        assert false;
      }
    }
  }

  lemma UniqueLess(t: TicketBag, t': TicketBag, f: FiberId)
    requires Unique(t) && t == t' + multiset{f}
    ensures Unique(t') && f !in t'
  {
    forall g ensures t'[g] <= 1 && (g == f ==> t'[g] == 0) {
      assert t[g] <= 1;
    }
  }

  lemma DispatchFiberTickets(s: State, w: WorkerId, spare: FiberId)
    requires CanDispatch(s, w, spare) && HoldsFiber(s.workers[w])
    ensures AllTickets(s) == AllTickets(DispatchStep(s, w, spare)) + multiset{s.workers[w].pc.task.work.fiber}
  {
    hide OfQueue, OfHands, OfSlots, OfTimers, OfBodies, AllTickets;
    var s' := DispatchStep(s, w, spare);
    var f := s.workers[w].pc.task.work.fiber;
    HandGives(s.workers, w, s'.workers[w], f);
    if !(s.fibers[f].state in {Term, Except}) {
      BodySame(s.fibers, f, s'.fibers[f]);
    }
    Given(s, s', f);
  }

  lemma HandGives(ws: Workers, w: WorkerId, x: Worker, f: FiberId)
    requires w < |ws| && HandTicket(ws[w]) == Some(f) && HandTicket(x) == None
    ensures OfHands(ws) == OfHands(ws[w := x]) + multiset{f}
  {
    hide OfHands;
    HandBag(ws, w, x);
  }

  lemma Given(s: State, s': State, f: FiberId)
    requires OfHands(s.workers) == OfHands(s'.workers) + multiset{f} && OfQueue(s'.queue) == OfQueue(s.queue)
    requires OfSlots(s'.slots) == OfSlots(s.slots) && OfTimers(s'.timers) == OfTimers(s.timers) && OfBodies(s'.fibers) == OfBodies(s.fibers)
    ensures AllTickets(s) == AllTickets(s') + multiset{f}
  {
    hide OfQueue, OfHands, OfSlots, OfTimers, OfBodies;
  }

  lemma DispatchFiberKeeps(s: State, w: WorkerId, spare: FiberId)
    requires TicketInv(s) && CanDispatch(s, w, spare) && HoldsFiber(s.workers[w])
    ensures TicketInv(DispatchStep(s, w, spare))
  {
    hide Cpu, TimersOnce, OfQueue, OfHands, OfSlots, OfTimers, OfBodies;
    var s' := DispatchStep(s, w, spare);
    var t' := AllTickets(s');
    var f := s.workers[w].pc.task.work.fiber;
    DispatchFiberTickets(s, w, spare);
    UniqueLess(AllTickets(s), t', f);
    OthersHold(s.workers, w, AllTickets(s), t');
    if s.fibers[f].state in {Term, Except} {
      CpuLess(s.workers, s.fibers, AllTickets(s), t');
      CpuRest(s.workers, s.fibers, t', w, s'.workers[w]);
    } else {
      CpuRunFiber(s.workers, s.fibers, t', w, f, s'.fibers[f]);
    }
  }

  lemma DispatchCallKeeps(s: State, w: WorkerId, spare: FiberId)
    requires TicketInv(s) && CanDispatch(s, w, spare) && !HoldsFiber(s.workers[w])
    ensures TicketInv(DispatchStep(s, w, spare))
    ensures AllTickets(s) == AllTickets(DispatchStep(s, w, spare))
  {
    hide Cpu, TimersOnce, OfQueue, OfHands, OfSlots, OfTimers, OfBodies;
    var s', t := DispatchStep(s, w, spare), AllTickets(s);
    var g := s'.workers[w].pc.fiber;
    HandSet(s.workers, w, s'.workers[w]);
    BodySet(s.fibers, g, s'.fibers[g]);
    if s.workers[w].cbFiber.Some? {
      CpuIdleBody(s.workers, s.fibers, t, w);
    }
    assert AllTickets(s') == t;
    forall w' | 0 <= w' < |s.workers| && HoldsFiber(s.workers[w']) ensures s.workers[w'].pc.task.work.fiber in t {
      HandHas(s.workers, w');
    }
    CpuRunCallback(s.workers, s.fibers, t, w, g, s'.fibers[g]);
  }

  lemma CpuIdleBody(ws: Workers, fs: Fibers, t: TicketBag, w: WorkerId)
    requires Cpu(ws, fs, t) && w < |ws| && ws[w].cbFiber.Some? && !InCallback(ws[w])
    ensures ws[w].cbFiber.value in fs && fs[ws[w].cbFiber.value].body == None
  {}

  // ----- the building blocks of the other steps -----

  lemma PushTickets(s: State, work: Work, thread: Option<WorkerId>)
    ensures AllTickets(Push(s, work, thread)) == AllTickets(s) + One(TicketOf(work))
  {
    hide OfQueue, OfHands, OfSlots, OfTimers, OfBodies;
    QueuePush(s.queue, Task(work, thread));
  }

  lemma PushKeeps(s: State, work: Work, thread: Option<WorkerId>)
    requires TicketInv(s) && TicketOf(work) == None
    ensures TicketInv(Push(s, work, thread))
  {
    hide Cpu, Unique, TimersOnce, AllTickets;
    PushTickets(s, work, thread);
    assert AllTickets(Push(s, work, thread)) == AllTickets(s);
  }

  /** A fiber that may be given a wake-up: none is pending, and it is leaving any worker it is on. */
  ghost predicate Wakeable(s: State, f: FiberId) {
    && f in s.fibers
    && f !in AllTickets(s)
    && Leaving(s.workers, s.fibers, f)
    && (forall w :: 0 <= w < |s.workers| && !InCallback(s.workers[w]) ==> s.workers[w].cbFiber != Some(f))
  }

  lemma UniqueMore(t: TicketBag, f: FiberId)
    requires Unique(t) && f !in t
    ensures Unique(t + multiset{f})
  {}

  lemma PushFiberKeeps(s: State, f: FiberId, thread: Option<WorkerId>)
    requires TicketInv(s) && Wakeable(s, f)
    ensures TicketInv(Push(s, FiberWork(f), thread))
  {
    hide Cpu, Unique, TimersOnce, AllTickets;
    PushTickets(s, FiberWork(f), thread);
    UniqueMore(AllTickets(s), f);
    CpuMore(s.workers, s.fibers, AllTickets(s), f);
  }

  lemma SlotPutTickets(s: State, k: Slot, work: Work)
    requires k !in s.slots
    ensures AllTickets(s.(slots := s.slots[k := work])) == AllTickets(s) + One(TicketOf(work))
  {
    hide OfQueue, OfHands, OfSlots, OfTimers, OfBodies;
    SlotPut(s.slots, k, work);
  }

  lemma SlotPutKeeps(s: State, k: Slot, tag: nat)
    requires TicketInv(s) && k !in s.slots
    ensures TicketInv(s.(slots := s.slots[k := CallWork(User(tag))]))
  {
    hide Cpu, Unique, TimersOnce, AllTickets;
    SlotPutTickets(s, k, CallWork(User(tag)));
    assert AllTickets(s.(slots := s.slots[k := CallWork(User(tag))])) == AllTickets(s);
  }

  lemma SlotFiberKeeps(s: State, k: Slot, f: FiberId)
    requires TicketInv(s) && k !in s.slots && Wakeable(s, f)
    ensures TicketInv(s.(slots := s.slots[k := FiberWork(f)]))
  {
    hide Cpu, Unique, TimersOnce, AllTickets;
    SlotPutTickets(s, k, FiberWork(f));
    UniqueMore(AllTickets(s), f);
    CpuMore(s.workers, s.fibers, AllTickets(s), f);
  }

  lemma FewerKeeps(s: State, s': State)
    requires TicketInv(s) && s'.workers == s.workers && s'.fibers == s.fibers && s'.nextTimer == s.nextTimer
    requires TimersOnce(s'.timers, s'.nextTimer) && AllTickets(s') <= AllTickets(s)
    ensures TicketInv(s')
  {
    hide Cpu, TimersOnce, AllTickets;
    CpuLess(s.workers, s.fibers, AllTickets(s), AllTickets(s'));
    assert forall f :: AllTickets(s')[f] <= AllTickets(s)[f];
  }

  lemma SlotDropKeeps(s: State, k: Slot)
    requires TicketInv(s)
    ensures TicketInv(s.(slots := s.slots - {k}))
  {
    hide OfQueue, OfHands, OfSlots, OfTimers, OfBodies, Cpu, TimersOnce;
    SlotDrop(s.slots, k);
    FewerKeeps(s, s.(slots := s.slots - {k}));
  }

  /** Triggering moves a wake-up from its slot to the queue. */
  lemma TriggerTickets(s: State, k: Slot)
    ensures AllTickets(Trigger(s, k)) == AllTickets(s)
  {
    hide OfQueue, OfHands, OfSlots, OfTimers, OfBodies;
    if k in s.slots {
      SlotDrop(s.slots, k);
      QueuePush(s.queue, Task(s.slots[k], None));
    }
  }

  lemma TriggerKeeps(s: State, k: Slot)
    requires TicketInv(s)
    ensures TicketInv(Trigger(s, k))
  {
    hide Cpu, Unique, TimersOnce, AllTickets;
    TriggerTickets(s, k);
  }

  lemma TriggerBothKeeps(s: State, fd: nat, events: set<Event>)
    requires TicketInv(s)
    ensures TicketInv(TriggerBoth(s, fd, events))
  {
    hide TicketInv, Trigger;
    TriggerKeeps(s, Slot(fd, Read));
    TriggerKeeps(s, Slot(fd, Write));
    TriggerKeeps(Trigger(s, Slot(fd, Read)), Slot(fd, Write));
  }

  lemma AddTimerTickets(s: State, ms: nat, recurring: bool, cb: Callback)
    requires s.nextTimer !in s.timers
    ensures AllTickets(AddTimer(s, ms, recurring, cb)) == AllTickets(s) + One(TicketOf(CallWork(cb)))
  {
    hide OfQueue, OfHands, OfSlots, OfTimers, OfBodies;
    TimerPut(s.timers, s.nextTimer, AddTimer(s, ms, recurring, cb).timers[s.nextTimer]);
  }

  lemma AddTimerKeeps(s: State, ms: nat, recurring: bool, cb: Callback)
    requires TicketInv(s) && !cb.Resume?
    ensures TicketInv(AddTimer(s, ms, recurring, cb))
  {
    hide Cpu, Unique, AllTickets;
    AddTimerTickets(s, ms, recurring, cb);
    assert AllTickets(AddTimer(s, ms, recurring, cb)) == AllTickets(s);
  }

  lemma SleepKeeps(s: State, ms: nat, f: FiberId)
    requires TicketInv(s) && Wakeable(s, f)
    ensures TicketInv(AddTimer(s, ms, false, Resume(f)))
  {
    hide Cpu, Unique, AllTickets;
    AddTimerTickets(s, ms, false, Resume(f));
    UniqueMore(AllTickets(s), f);
    CpuMore(s.workers, s.fibers, AllTickets(s), f);
  }

  lemma DropTimerKeeps(s: State, id: Option<nat>)
    requires TicketInv(s)
    ensures TicketInv(DropTimer(s, id))
  {
    hide OfQueue, OfHands, OfSlots, OfTimers, OfBodies, Cpu;
    if id.Some? {
      TimerDrop(s.timers, id.value);
      FewerKeeps(s, DropTimer(s, id));
    }
  }

  lemma SetFiberTickets(s: State, f: FiberId, x: Fiber)
    requires f in s.fibers && BodyTicket(x) == BodyTicket(s.fibers[f])
    ensures AllTickets(SetFiber(s, f, x)) == AllTickets(s)
  {
    hide OfQueue, OfHands, OfSlots, OfTimers, OfBodies;
    BodySame(s.fibers, f, x);
  }

  /** The running fiber's own record changes; its state stays EXEC. */
  lemma SelfKeeps(s: State, w: WorkerId, x: Fiber)
    requires TicketInv(s) && Runs(s, w)
    requires x.state == Exec && (Self(s, w).armed ==> x.armed) && BodyTicket(x) == BodyTicket(Self(s, w))
    ensures TicketInv(SetFiber(s, Current(s, w), x))
    ensures AllTickets(SetFiber(s, Current(s, w), x)) == AllTickets(s)
  {
    hide Cpu, Unique, TimersOnce, AllTickets;
    SetFiberTickets(s, Current(s, w), x);
    CpuSelf(s.workers, s.fibers, AllTickets(s), w, x);
  }

  lemma SelfIsExec(s: State, w: WorkerId)
    requires TicketInv(s) && Runs(s, w)
    ensures Self(s, w).state == Exec
    ensures !Self(s, w).armed ==> Current(s, w) !in AllTickets(s)
    ensures forall w' :: 0 <= w' < |s.workers| && !InCallback(s.workers[w']) ==> s.workers[w'].cbFiber != Some(Current(s, w))
  {
    hide Unique, TimersOnce, AllTickets;
  }

  /** Having armed itself, the running fiber may be given its wake-up. */
  lemma ArmKeeps(s: State, w: WorkerId)
    requires TicketInv(s) && Runs(s, w) && !Self(s, w).armed
    ensures TicketInv(Arm(s, w)) && Wakeable(Arm(s, w), Current(s, w))
  {
    hide Cpu, Unique, TimersOnce, AllTickets;
    SelfIsExec(s, w);
    SelfKeeps(s, w, Self(s, w).(armed := true));
  }

  lemma LeaveTickets(s: State, w: WorkerId, state: FiberState)
    requires Runs(s, w)
    ensures AllTickets(Leave(s, w, state)) == AllTickets(s)
  {
    hide OfQueue, OfHands, OfSlots, OfTimers, OfBodies;
    HandSet(s.workers, w, Leave(s, w, state).workers[w]);
    BodySame(s.fibers, Current(s, w), Leave(s, w, state).fibers[Current(s, w)]);
  }

  lemma LeaveKeeps(s: State, w: WorkerId, state: FiberState)
    requires TicketInv(s) && Runs(s, w)
    requires state == Exec || (state in {Ready, Term, Except} && !Self(s, w).armed)
    ensures TicketInv(Leave(s, w, state))
  {
    hide Cpu, Unique, TimersOnce, AllTickets;
    SelfIsExec(s, w);
    LeaveTickets(s, w, state);
    CpuLeave(s.workers, s.fibers, AllTickets(s), w, Self(s, w).(state := state, armed := false));
  }

  /** Clearing a Resume body frees the ticket it held; any other body held none. */
  lemma ClearBodyTickets(s: State, w: WorkerId)
    requires Runs(s, w)
    ensures AllTickets(s) == AllTickets(ClearBody(s, w)) + One(BodyTicket(Self(s, w)))
  {
    hide OfQueue, OfHands, OfSlots, OfTimers, OfBodies;
    BodySet(s.fibers, Current(s, w), Self(s, w).(body := None));
  }

  lemma ClearBodyKeeps(s: State, w: WorkerId)
    requires TicketInv(s) && Runs(s, w)
    ensures TicketInv(ClearBody(s, w)) && AllTickets(ClearBody(s, w)) <= AllTickets(s)
  {
    hide Cpu, TimersOnce, AllTickets;
    SelfIsExec(s, w);
    ClearBodyTickets(s, w);
    var s' := ClearBody(s, w);
    CpuSelf(s.workers, s.fibers, AllTickets(s), w, Self(s, w).(body := None));
    CpuLess(s'.workers, s'.fibers, AllTickets(s), AllTickets(s'));
    assert forall f :: AllTickets(s')[f] <= AllTickets(s)[f];
  }

  // ----- worker bookkeeping -----

  lemma RecordTickets(s: State, s': State, w: WorkerId, f: FiberId)
    requires w < |s.workers| && w < |s'.workers| && f in s.fibers && f in s'.fibers
    requires s'.queue == s.queue && s'.slots == s.slots && s'.timers == s.timers
    requires s'.workers == s.workers[w := s'.workers[w]] && s'.fibers == s.fibers[f := s'.fibers[f]]
    requires HandTicket(s.workers[w]) == HandTicket(s'.workers[w])
    ensures forall g :: AllTickets(s')[g] + One(BodyTicket(s.fibers[f]))[g]
                     == AllTickets(s)[g] + One(BodyTicket(s'.fibers[f]))[g]
  {
    hide OfQueue, OfHands, OfSlots, OfTimers, OfBodies, One;
    HandSet(s.workers, w, s'.workers[w]);
    BodySet(s.fibers, f, s'.fibers[f]);
  }

  lemma SettleTickets(s: State, w: WorkerId)
    requires CanPostRun(s, w)
    ensures AllTickets(Settle(s, w)) <= AllTickets(s)
    ensures
      var f := s.workers[w].pc.fiber;
      BodyTicket(Settled(s.fibers[f], s.workers[w].pc.viaCb)) == BodyTicket(s.fibers[f]) ==>
        AllTickets(Settle(s, w)) == AllTickets(s)
  {
    hide AllTickets;
    RecordTickets(s, Settle(s, w), w, s.workers[w].pc.fiber);
  }

  lemma CpuReturned(ws: Workers, fs: Fibers, t: TicketBag, w: WorkerId)
    requires Cpu(ws, fs, t) && w < |ws| && ws[w].pc.Returned?
    ensures ws[w].pc.fiber in fs && !fs[ws[w].pc.fiber].armed
    ensures fs[ws[w].pc.fiber].state in {Exec, Ready, Term, Except}
    ensures fs[ws[w].pc.fiber].state != Exec ==> ws[w].pc.fiber !in t
    ensures ws[w].pc.viaCb ==> ws[w].cbFiber == Some(ws[w].pc.fiber)
    ensures forall w' :: 0 <= w' < |ws| && !InCallback(ws[w']) ==> ws[w'].cbFiber != Some(ws[w].pc.fiber)
    ensures ws[w].pc.viaCb ==> forall w' :: 0 <= w' < |ws| && w' != w ==> ws[w'].cbFiber != Some(ws[w].pc.fiber)
  {}

  lemma SettleKeeps(s: State, w: WorkerId)
    requires TicketInv(s) && CanPostRun(s, w)
    ensures TicketInv(Settle(s, w))
    ensures s.fibers[s.workers[w].pc.fiber].state == Ready ==> Wakeable(Settle(s, w), s.workers[w].pc.fiber)
  {
    hide Cpu, Unique, TimersOnce, AllTickets;
    var s', t, f := Settle(s, w), AllTickets(s), s.workers[w].pc.fiber;
    SettleTickets(s, w);
    CpuReturned(s.workers, s.fibers, t, w);
    CpuPost(s.workers, s.fibers, t, w, s'.workers[w], s'.fibers[f]);
    CpuLess(s'.workers, s'.fibers, t, AllTickets(s'));
    SubBag(AllTickets(s'), t);
  }

  lemma SubBag(t': TicketBag, t: TicketBag)
    requires Unique(t) && t' <= t
    ensures Unique(t')
    ensures forall f :: f !in t ==> f !in t'
  {}

  lemma PostRunKeeps(s: State, w: WorkerId)
    requires TicketInv(s) && CanPostRun(s, w)
    ensures TicketInv(PostRunStep(s, w))
  {
    hide TicketInv, Settle, Wakeable;
    SettleKeeps(s, w);
    if s.fibers[s.workers[w].pc.fiber].state == Ready {
      PushFiberKeeps(Settle(s, w), s.workers[w].pc.fiber, None);
    }
  }

  // ----- expiry -----

  /** What is left of the timers once those in `order` have fired at time `now`. */
  function Left(timers: map<nat, TimerEntry>, now: nat, order: seq<nat>): map<nat, TimerEntry> {
    map id | id in timers && (id in order ==> timers[id].recurring) ::
      if id in order then timers[id].(next := Deadline(now, timers[id].ms)) else timers[id]
  }

  function Fired(timers: map<nat, TimerEntry>, order: seq<nat>): seq<Task>
    requires forall i :: 0 <= i < |order| ==> order[i] in timers
  {
    seq(|order|, i requires 0 <= i < |order| => Task(CallWork(timers[order[i]].cb), None))
  }

  lemma LeftStep(timers: map<nat, TimerEntry>, now: nat, order: seq<nat>, id: nat)
    requires id in timers && id !in order
    ensures Left(timers, now, order + [id])
         == if timers[id].recurring then Left(timers, now, order)[id := timers[id].(next := Deadline(now, timers[id].ms))]
            else Left(timers, now, order) - {id}
    ensures id in Left(timers, now, order) && Left(timers, now, order)[id] == timers[id]
  {}

  lemma TimerUpdate(m: map<nat, TimerEntry>, id: nat, t: TimerEntry)
    requires id in m && m[id].cb == t.cb
    ensures OfTimers(m[id := t]) == OfTimers(m)
  {
    assert TimerView(m[id := t]) == TimerView(m);
  }

  /** Expiry moves wake-ups from the timers to the queue and loses none. */
  lemma {:induction false} ExpireTickets(q: seq<Task>, timers: map<nat, TimerEntry>, now: nat, order: seq<nat>)
    requires forall i :: 0 <= i < |order| ==> order[i] in timers
    requires forall i, j :: 0 <= i < j < |order| ==> order[i] != order[j]
    requires forall id :: id in timers && timers[id].cb.Resume? ==> !timers[id].recurring
    ensures forall f :: OfQueue(q + Fired(timers, order))[f] + OfTimers(Left(timers, now, order))[f]
                     == OfQueue(q)[f] + OfTimers(timers)[f]
  {
    hide OfQueue, OfTimers;
    if order == [] {
      assert q + Fired(timers, order) == q;
      assert Left(timers, now, order) == timers;
    } else {
      var n := |order| - 1;
      var front, id := order[..n], order[n];
      assert order == front + [id];
      ExpireTickets(q, timers, now, front);
      LeftStep(timers, now, front, id);
      var last := Task(CallWork(timers[id].cb), None);
      assert q + Fired(timers, order) == (q + Fired(timers, front)) + [last];
      QueuePush(q + Fired(timers, front), last);
      if timers[id].recurring {
        TimerUpdate(Left(timers, now, front), id, timers[id].(next := Deadline(now, timers[id].ms)));
      } else {
        TimerDrop(Left(timers, now, front), id);
      }
    }
  }

  lemma ExpireKeeps(s: State, order: seq<nat>)
    requires TicketInv(s) && ExpiryOrder(s, order)
    ensures TicketInv(ExpireStep(s, order))
    ensures AllTickets(ExpireStep(s, order)) == AllTickets(s)
  {
    hide Cpu, Unique, OfQueue, OfHands, OfSlots, OfTimers, OfBodies;
    var s' := ExpireStep(s, order);
    ExpireTickets(s.queue, s.timers, s.now, order);
    assert s'.timers == Left(s.timers, s.now, order);
    assert s'.queue == s.queue + Fired(s.timers, order);
    assert AllTickets(s') == AllTickets(s);
  }

  // ----- program code and runtime callbacks -----

  lemma NoTicketNotCounted(s: State, f: FiberId)
    requires NoTicket(s, f)
    ensures f !in AllTickets(s)
  {
    hide OfQueue, OfHands, OfSlots, OfTimers, OfBodies, TicketAt;
    if f in AllTickets(s) {
      var _ := PlaceOf(s, f);
    }
  }

  /** A counted wake-up is somewhere. */
  lemma PlaceOf(s: State, f: FiberId) returns (at: Place)
    requires f in AllTickets(s)
    ensures TicketAt(s, f, at)
  {
    hide OfQueue, OfHands, OfSlots, OfTimers, OfBodies, TicketAt;
    if f in OfQueue(s.queue) {
      at := PlaceInQueue(s, f);
    } else if f in OfHands(s.workers) {
      at := PlaceInHand(s, f);
    } else if f in OfSlots(s.slots) {
      at := PlaceInSlot(s, f);
    } else if f in OfTimers(s.timers) {
      at := PlaceInTimer(s, f);
    } else {
      at := PlaceInBody(s, f);
    }
  }

  lemma PlaceInQueue(s: State, f: FiberId) returns (at: Place)
    requires f in OfQueue(s.queue)
    ensures TicketAt(s, f, at)
  {
    var i := OfSeqHas(QueueView(s.queue), f);
    at := Queued(i);
  }

  lemma PlaceInHand(s: State, f: FiberId) returns (at: Place)
    requires f in OfHands(s.workers)
    ensures TicketAt(s, f, at)
  {
    var w := OfSeqHas(HandView(s.workers), f);
    at := InHand(w);
  }

  lemma PlaceInSlot(s: State, f: FiberId) returns (at: Place)
    requires f in OfSlots(s.slots)
    ensures TicketAt(s, f, at)
  {
    var k := OfMapHas(SlotView(s.slots), f);
    at := InSlot(k);
  }

  lemma PlaceInTimer(s: State, f: FiberId) returns (at: Place)
    requires f in OfTimers(s.timers)
    ensures TicketAt(s, f, at)
  {
    var id := OfMapHas(TimerView(s.timers), f);
    at := InTimer(id);
  }

  lemma PlaceInBody(s: State, f: FiberId) returns (at: Place)
    requires f in OfBodies(s.fibers)
    ensures TicketAt(s, f, at)
  {
    var g := OfMapHas(BodyView(s.fibers), f);
    at := InBody(g);
  }

  lemma SpawnKeeps(s: State, f: FiberId, thread: Option<WorkerId>)
    requires TicketInv(s) && f !in s.fibers
    ensures TicketInv(ActStep(s, Spawn(f, thread)))
  {
    hide Unique, TimersOnce, OfQueue, OfHands, OfSlots, OfTimers, OfBodies;
    var s1 := SetFiber(s, f, Fiber(Init, false, None, None));
    BodySame(s.fibers, f, Fiber(Init, false, None, None));
    assert AllTickets(s1) == AllTickets(s);
    CpuSpawn(s.workers, s.fibers, AllTickets(s), f);
    PushFiberKeeps(s1, f, thread);
  }

  lemma SubmitKeeps(s: State, f: FiberId, thread: Option<WorkerId>)
    requires TicketInv(s) && CanAct(s, Submit(f, thread))
    ensures TicketInv(ActStep(s, Submit(f, thread)))
  {
    hide Cpu, Unique, TimersOnce, AllTickets;
    NoTicketNotCounted(s, f);
    PushFiberKeeps(s, f, thread);
  }

  lemma ActKeeps(s: State, action: Action)
    requires TicketInv(s) && CanAct(s, action)
    ensures TicketInv(ActStep(s, action))
  {
    hide Cpu, Unique, TimersOnce, AllTickets, Trigger, TriggerBoth;
    match action
    case Spawn(f, thread) => SpawnKeeps(s, f, thread);
    case Submit(f, thread) => SubmitKeeps(s, f, thread);
    case Call(tag, thread) => PushKeeps(s, CallWork(User(tag)), thread);
    case OnEvent(k, tag, _) => SlotPutKeeps(s, k, tag);
    case DelEvent(k, _) => SlotDropKeeps(s, k);
    case CancelEvent(k, _) => TriggerKeeps(s, k);
    case CancelAll(fd, _) => TriggerBothKeeps(s, fd, {Read, Write});
    case StartTimer(ms, tag, recurring) => AddTimerKeeps(s, ms, recurring, User(tag));
    case StopTimer(id) => DropTimerKeeps(s, Some(id));
    case RequestStop => assert AllTickets(s.(stopRequested := true)) == AllTickets(s) by { SameTickets(s, s.(stopRequested := true)); }
  }

  lemma SameTickets(s: State, s': State)
    requires s'.queue == s.queue && s'.workers == s.workers && s'.slots == s.slots && s'.timers == s.timers
    requires s'.fibers == s.fibers
    ensures AllTickets(s') == AllTickets(s)
  {}

  /** The ticket invariant looks at no other part of the state. */
  lemma SameInv(s: State, s': State)
    requires TicketInv(s)
    requires s'.queue == s.queue && s'.workers == s.workers && s'.slots == s.slots && s'.timers == s.timers
    requires s'.fibers == s.fibers && s'.nextTimer == s.nextTimer
    ensures TicketInv(s')
  {
    hide Cpu, Unique, TimersOnce, AllTickets;
    SameTickets(s, s');
  }

  lemma RunResumeKeeps(s: State, w: WorkerId)
    requires TicketInv(s) && RunsBody(s, w) && Self(s, w).body.value.Resume?
    ensures TicketInv(RunResumeStep(s, w))
  {
    hide Unique, TimersOnce, AllTickets, CbFibers, CpuDistinct, HandsIdle, ArmedRun;
    var f, s1 := Self(s, w).body.value.fiber, ClearBody(s, w);
    ClearBodyTickets(s, w);
    ClearBodyKeeps(s, w);
    UniqueLess(AllTickets(s), AllTickets(s1), f);
    assert f in AllTickets(s);
    IdleCbUnknown(s, f);
    PushFiberKeeps(s1, f, None);
  }

  lemma IdleCbUnknown(s: State, f: FiberId)
    requires TicketInv(s) && f in AllTickets(s)
    ensures forall w :: 0 <= w < |s.workers| && !InCallback(s.workers[w]) ==> s.workers[w].cbFiber != Some(f)
  {
    hide AllTickets, Unique, TimersOnce;
  }

  lemma RunTimeoutKeeps(s: State, w: WorkerId, ok: bool)
    requires TicketInv(s) && RunsBody(s, w) && Self(s, w).body.value.Timeout?
    ensures TicketInv(RunTimeoutStep(s, w, ok))
  {
    hide TicketInv, Trigger, ClearBody;
    var c, k, s1 := Self(s, w).body.value.call, Self(s, w).body.value.slot, ClearBody(s, w);
    ClearBodyKeeps(s, w);
    if c in s.calls {
      var s2 := s1.(calls := s.calls[c := s.calls[c].(timedOutAt := Some(s.now))]);
      SameInv(s1, s2);
      TriggerKeeps(s2, k);
    }
  }
}
