/** Wake-up tickets: a fiber has at most one pending wake-up, wherever it is, and is never on two
    workers. The invariant counts the wake-ups over every place that can hold one. */
module Tickets {
  import opened Wrappers
  import opened Tasks
  import opened Runtime
  import opened Pending

  type Workers = seq<Worker>
  type Fibers = map<FiberId, Fiber>

  // ----- counting the places -----

  function HandTicket(w: Worker): Option<FiberId> {
    if w.pc.Holding? then TicketOf(w.pc.task.work) else None
  }

  function BodyTicket(f: Fiber): Option<FiberId> {
    if f.body.Some? then TicketOf(CallWork(f.body.value)) else None
  }

  function QueueView(q: seq<Task>): seq<Option<FiberId>> {
    seq(|q|, i requires 0 <= i < |q| => TicketOf(q[i].work))
  }

  function HandView(ws: Workers): seq<Option<FiberId>> {
    seq(|ws|, i requires 0 <= i < |ws| => HandTicket(ws[i]))
  }

  function SlotView(m: map<Slot, Work>): map<Slot, Option<FiberId>> {
    map k | k in m :: TicketOf(m[k])
  }

  function TimerView(m: map<nat, TimerEntry>): map<nat, Option<FiberId>> {
    map id | id in m :: TicketOf(CallWork(m[id].cb))
  }

  function BodyView(m: Fibers): map<FiberId, Option<FiberId>> {
    map g | g in m :: BodyTicket(m[g])
  }

  ghost function OfQueue(q: seq<Task>): TicketBag { OfSeq(QueueView(q)) }
  ghost function OfHands(ws: Workers): TicketBag { OfSeq(HandView(ws)) }
  ghost function OfSlots(m: map<Slot, Work>): TicketBag { OfMap(SlotView(m)) }
  ghost function OfTimers(m: map<nat, TimerEntry>): TicketBag { OfMap(TimerView(m)) }
  ghost function OfBodies(m: Fibers): TicketBag { OfMap(BodyView(m)) }

  /** How many pending wake-ups each fiber has. */
  ghost function AllTickets(s: State): TicketBag {
    OfQueue(s.queue) + OfHands(s.workers) + OfSlots(s.slots) + OfTimers(s.timers) + OfBodies(s.fibers)
  }

  lemma QueuePush(q: seq<Task>, t: Task)
    ensures forall f :: OfQueue(q + [t])[f] == OfQueue(q)[f] + One(TicketOf(t.work))[f]
  {
    hide OfSeq, One, TicketOf;
    var o := TicketOf(t.work);
    assert QueueView(q + [t]) == QueueView(q) + [o];
    OfSeqConcat(QueueView(q), [o]);
    OfSeqOne(o);
  }

  lemma QueueTake(q: seq<Task>, k: nat)
    requires k < |q|
    ensures forall f :: OfQueue(q)[f] == OfQueue(RemoveAt(q, k))[f] + One(TicketOf(q[k].work))[f]
  {
    assert QueueView(RemoveAt(q, k)) == RemoveAt(QueueView(q), k);
    OfSeqRemove(QueueView(q), k);
  }

  lemma HandSet(ws: Workers, w: WorkerId, x: Worker)
    requires w < |ws|
    ensures forall f :: OfHands(ws[w := x])[f] + One(HandTicket(ws[w]))[f] == OfHands(ws)[f] + One(HandTicket(x))[f]
  {
    assert HandView(ws[w := x]) == HandView(ws)[w := HandTicket(x)];
    OfSeqUpdate(HandView(ws), w, HandTicket(x));
    forall f ensures OfHands(ws[w := x])[f] + One(HandTicket(ws[w]))[f] == OfHands(ws)[f] + One(HandTicket(x))[f] {
      assert (OfHands(ws[w := x]) + One(HandTicket(ws[w])))[f] == (OfHands(ws) + One(HandTicket(x)))[f];
    }
  }

  lemma HandHas(ws: Workers, w: WorkerId)
    requires w < |ws| && HandTicket(ws[w]).Some?
    ensures HandTicket(ws[w]).value in OfHands(ws)
  {
    OfSeqSplit(HandView(ws), w);
  }

  lemma SlotPut(m: map<Slot, Work>, k: Slot, work: Work)
    requires k !in m
    ensures forall f :: OfSlots(m[k := work])[f] == OfSlots(m)[f] + One(TicketOf(work))[f]
  {
    hide OfMap, One, TicketOf;
    assert SlotView(m[k := work]) == SlotView(m)[k := TicketOf(work)];
    OfMapNew(SlotView(m), k, TicketOf(work));
  }

  lemma SlotDrop(m: map<Slot, Work>, k: Slot)
    ensures forall f :: OfSlots(m)[f] == OfSlots(m - {k})[f] + if k in m then One(TicketOf(m[k]))[f] else 0
  {
    assert SlotView(m - {k}) == SlotView(m) - {k};
    OfMapDrop(SlotView(m), k);
  }

  lemma TimerPut(m: map<nat, TimerEntry>, id: nat, t: TimerEntry)
    requires id !in m
    ensures forall f :: OfTimers(m[id := t])[f] == OfTimers(m)[f] + One(TicketOf(CallWork(t.cb)))[f]
  {
    hide OfMap, One, TicketOf;
    var o := TicketOf(CallWork(t.cb));
    assert TimerView(m[id := t]) == TimerView(m)[id := o];
    OfMapNew(TimerView(m), id, o);
  }

  lemma TimerDrop(m: map<nat, TimerEntry>, id: nat)
    ensures forall f :: OfTimers(m)[f] == OfTimers(m - {id})[f] + if id in m then One(TicketOf(CallWork(m[id].cb)))[f] else 0
  {
    assert TimerView(m - {id}) == TimerView(m) - {id};
    OfMapDrop(TimerView(m), id);
  }

  lemma BodySet(m: Fibers, g: FiberId, x: Fiber)
    ensures forall f :: OfBodies(m[g := x])[f] + (if g in m then One(BodyTicket(m[g]))[f] else 0)
                     == OfBodies(m)[f] + One(BodyTicket(x))[f]
  {
    assert BodyView(m[g := x]) == BodyView(m)[g := BodyTicket(x)];
    OfMapAdd(BodyView(m), g, BodyTicket(x));
    var was := if g in m then One(BodyTicket(m[g])) else multiset{};
    forall f ensures OfBodies(m[g := x])[f] + was[f] == OfBodies(m)[f] + One(BodyTicket(x))[f] {
      assert (OfBodies(m[g := x]) + was)[f] == (OfBodies(m) + One(BodyTicket(x)))[f];
    }
  }

  lemma BodySame(m: Fibers, g: FiberId, x: Fiber)
    requires if g in m then BodyTicket(x) == BodyTicket(m[g]) else BodyTicket(x) == None
    ensures OfBodies(m[g := x]) == OfBodies(m)
  {
    BodySet(m, g, x);
    assert forall f :: OfBodies(m[g := x])[f] == OfBodies(m)[f];
  }

  // ----- the invariant -----

  ghost predicate OffCpu(ws: Workers, f: FiberId) {
    forall w :: 0 <= w < |ws| ==> ws[w].OnCpu() != Some(f)
  }

  predicate InCallback(w: Worker) {
    (w.pc.Running? || w.pc.Returned?) && w.pc.viaCb
  }

  /** A fiber on a worker is in a state that fits where the worker is; if a wake-up of it is
      pending it is still EXEC, and bound to switch out. */
  ghost predicate CpuStates(ws: Workers, fs: Fibers, t: TicketBag) {
    forall w :: 0 <= w < |ws| && ws[w].OnCpu().Some? ==>
      var f := ws[w].pc.fiber;
      && f in fs
      && (ws[w].pc.Running? ==> fs[f].state == Exec)
      && (ws[w].pc.Returned? ==> fs[f].state in {Exec, Ready, Term, Except} && !fs[f].armed)
      && (f in t ==> fs[f].state == Exec && (ws[w].pc.Running? ==> fs[f].armed))
  }

  ghost predicate CpuDistinct(ws: Workers) {
    forall w, w' :: 0 <= w < w' < |ws| && ws[w].OnCpu().Some? ==> ws[w].OnCpu() != ws[w'].OnCpu()
  }

  predicate HoldsFiber(w: Worker) {
    w.pc.Holding? && w.pc.task.work.FiberWork?
  }

  /** A fiber taken from the queue is on no worker and not executing. */
  ghost predicate HandsIdle(ws: Workers, fs: Fibers) {
    forall w :: 0 <= w < |ws| && HoldsFiber(ws[w]) ==>
      var f := ws[w].pc.task.work.fiber;
      f in fs && fs[f].state != Exec && OffCpu(ws, f)
  }

  /** A worker's callback fiber is its own; unless it is the one running it is INIT and unknown elsewhere. */
  ghost predicate CbFibers(ws: Workers, fs: Fibers, t: TicketBag) {
    && (forall w :: 0 <= w < |ws| && InCallback(ws[w]) ==> ws[w].cbFiber == Some(ws[w].pc.fiber))
    && (forall w :: 0 <= w < |ws| && ws[w].cbFiber.Some? && !InCallback(ws[w]) ==>
          var g := ws[w].cbFiber.value;
          g in fs && fs[g] == Fiber(Init, false, None, None) && g !in t && OffCpu(ws, g))
    && (forall w, w' :: 0 <= w < w' < |ws| && ws[w].cbFiber.Some? ==> ws[w].cbFiber != ws[w'].cbFiber)
  }

  ghost predicate ArmedRun(fs: Fibers) {
    forall f :: f in fs && fs[f].armed ==> fs[f].state == Exec
  }

  ghost predicate Cpu(ws: Workers, fs: Fibers, t: TicketBag) {
    && (forall f :: f in t ==> f in fs)
    && CpuStates(ws, fs, t)
    && CpuDistinct(ws)
    && HandsIdle(ws, fs)
    && CbFibers(ws, fs, t)
    && ArmedRun(fs)
  }

  ghost predicate Unique(t: TicketBag) {
    forall f :: t[f] <= 1
  }

  ghost predicate TimersOnce(timers: map<nat, TimerEntry>, next: nat) {
    forall id :: id in timers ==> id < next && (timers[id].cb.Resume? ==> !timers[id].recurring)
  }

  ghost predicate TicketInv(s: State) {
    && Unique(AllTickets(s))
    && Cpu(s.workers, s.fibers, AllTickets(s))
    && TimersOnce(s.timers, s.nextTimer)
  }

  // ----- moves that leave the workers alone -----

  /** On whatever worker the fiber is, it is still EXEC and has switched out or is bound to. */
  ghost predicate Leaving(ws: Workers, fs: Fibers, f: FiberId)
    requires f in fs
  {
    forall w :: 0 <= w < |ws| && ws[w].OnCpu() == Some(f) ==>
      fs[f].state == Exec && (ws[w].pc.Running? ==> fs[f].armed)
  }

  lemma CpuMore(ws: Workers, fs: Fibers, t: TicketBag, f: FiberId)
    requires Cpu(ws, fs, t) && f in fs
    requires Leaving(ws, fs, f)
    requires forall w :: 0 <= w < |ws| && !InCallback(ws[w]) ==> ws[w].cbFiber != Some(f)
    ensures Cpu(ws, fs, t + multiset{f})
  {}

  lemma CpuLess(ws: Workers, fs: Fibers, t: TicketBag, t': TicketBag)
    requires Cpu(ws, fs, t) && t' <= t
    ensures Cpu(ws, fs, t')
  {}

  lemma CpuSpawn(ws: Workers, fs: Fibers, t: TicketBag, f: FiberId)
    requires Cpu(ws, fs, t) && f !in fs
    ensures Cpu(ws, fs[f := Fiber(Init, false, None, None)], t) && OffCpu(ws, f)
    ensures forall w :: 0 <= w < |ws| && !InCallback(ws[w]) ==> ws[w].cbFiber != Some(f)
  {}

  /** The running fiber's own record changes, but not its state. */
  lemma CpuSelf(ws: Workers, fs: Fibers, t: TicketBag, w: WorkerId, x: Fiber)
    requires Cpu(ws, fs, t) && w < |ws| && ws[w].pc.Running? && ws[w].pc.fiber in fs
    requires x.state == Exec && (fs[ws[w].pc.fiber].armed ==> x.armed)
    ensures Cpu(ws, fs[ws[w].pc.fiber := x], t)
  {}

  lemma CpuLeave(ws: Workers, fs: Fibers, t: TicketBag, w: WorkerId, x: Fiber)
    requires Cpu(ws, fs, t) && w < |ws| && ws[w].pc.Running? && ws[w].pc.fiber in fs
    requires !x.armed && x.state in {Exec, Ready, Term, Except} && (ws[w].pc.fiber in t ==> x.state == Exec)
    ensures Cpu(ws[w := ws[w].(pc := Returned(ws[w].pc.fiber, ws[w].pc.viaCb))], fs[ws[w].pc.fiber := x], t)
  {}

  lemma CpuScan(ws: Workers, fs: Fibers, t: TicketBag, w: WorkerId, task: Task)
    requires Cpu(ws, fs, t) && w < |ws| && ws[w].pc.Scanning?
    requires task.work.FiberWork? ==>
               task.work.fiber in t && (task.work.fiber in fs ==> fs[task.work.fiber].state != Exec)
    ensures Cpu(ws[w := ws[w].(pc := Holding(task))], fs, t)
  {
    hide CpuStates, CpuDistinct, HandsIdle, CbFibers, ArmedRun;
    CpuScanHands(ws, fs, t, w, task);
    CpuScanOthers(ws, fs, t, w, task);
  }

  lemma CpuScanHands(ws: Workers, fs: Fibers, t: TicketBag, w: WorkerId, task: Task)
    requires CpuStates(ws, fs, t) && HandsIdle(ws, fs) && w < |ws| && ws[w].pc.Scanning?
    requires task.work.FiberWork? ==>
               task.work.fiber in t && task.work.fiber in fs && fs[task.work.fiber].state != Exec
    ensures HandsIdle(ws[w := ws[w].(pc := Holding(task))], fs)
  {}

  lemma CpuScanOthers(ws: Workers, fs: Fibers, t: TicketBag, w: WorkerId, task: Task)
    requires CpuStates(ws, fs, t) && CpuDistinct(ws) && CbFibers(ws, fs, t) && w < |ws| && ws[w].pc.Scanning?
    ensures var ws' := ws[w := ws[w].(pc := Holding(task))];
            CpuStates(ws', fs, t) && CpuDistinct(ws') && CbFibers(ws', fs, t)
  {}

  /** A worker that holds nothing moves between places where it holds nothing. */
  lemma CpuRest(ws: Workers, fs: Fibers, t: TicketBag, w: WorkerId, x: Worker)
    requires Cpu(ws, fs, t) && w < |ws| && ws[w].OnCpu() == None
    requires x.OnCpu() == None && !x.pc.Holding? && x.cbFiber == ws[w].cbFiber
    ensures Cpu(ws[w := x], fs, t)
  {}

  lemma CpuRunFiber(ws: Workers, fs: Fibers, t: TicketBag, w: WorkerId, f: FiberId, x: Fiber)
    requires Cpu(ws, fs, t + multiset{f}) && w < |ws| && HoldsFiber(ws[w]) && ws[w].pc.task.work.fiber == f
    requires f !in t && x.state == Exec
    requires forall w' :: 0 <= w' < |ws| && w' != w && HoldsFiber(ws[w']) ==> ws[w'].pc.task.work.fiber in t
    ensures Cpu(ws[w := ws[w].(pc := Running(f, false))], fs[f := x], t)
  {}

  lemma CpuRunCallback(ws: Workers, fs: Fibers, t: TicketBag, w: WorkerId, g: FiberId, x: Fiber)
    requires Cpu(ws, fs, t) && w < |ws| && ws[w].pc.Holding?
    requires if ws[w].cbFiber.Some? then g == ws[w].cbFiber.value else g !in fs
    requires x.state == Exec && !x.armed
    requires forall w' :: 0 <= w' < |ws| && HoldsFiber(ws[w']) ==> ws[w'].pc.task.work.fiber in t
    ensures Cpu(ws[w := ws[w].(pc := Running(g, true), cbFiber := Some(g))], fs[g := x], t)
  {
    hide CpuStates, CpuDistinct, HandsIdle, CbFibers, ArmedRun;
    CallbackIdle(ws, fs, t, w, g);
    CallbackStates(ws, fs, t, w, g, x);
    CallbackHands(ws, fs, t, w, g, x);
    CallbackOwn(ws, fs, t, w, g, x);
    CallbackArmed(fs, g, x);
  }

  /** The fiber that a callback is about to run in is new or resting: nowhere else, and not wanted. */
  lemma CallbackIdle(ws: Workers, fs: Fibers, t: TicketBag, w: WorkerId, g: FiberId)
    requires Cpu(ws, fs, t) && w < |ws| && ws[w].pc.Holding?
    requires if ws[w].cbFiber.Some? then g == ws[w].cbFiber.value else g !in fs
    ensures g !in t && OffCpu(ws, g) && forall v :: 0 <= v < |ws| && v != w ==> ws[v].cbFiber != Some(g)
  {
    hide HandsIdle, ArmedRun;
  }

  lemma CallbackStates(ws: Workers, fs: Fibers, t: TicketBag, w: WorkerId, g: FiberId, x: Fiber)
    requires CpuStates(ws, fs, t) && CpuDistinct(ws) && w < |ws| && ws[w].pc.Holding?
    requires OffCpu(ws, g) && g !in t && x.state == Exec
    ensures var ws' := ws[w := ws[w].(pc := Running(g, true), cbFiber := Some(g))];
            CpuStates(ws', fs[g := x], t) && CpuDistinct(ws')
  {}

  lemma CallbackHands(ws: Workers, fs: Fibers, t: TicketBag, w: WorkerId, g: FiberId, x: Fiber)
    requires HandsIdle(ws, fs) && w < |ws| && ws[w].pc.Holding? && g !in t
    requires forall v :: 0 <= v < |ws| && HoldsFiber(ws[v]) ==> ws[v].pc.task.work.fiber in t
    ensures HandsIdle(ws[w := ws[w].(pc := Running(g, true), cbFiber := Some(g))], fs[g := x])
  {}

  lemma CallbackOwn(ws: Workers, fs: Fibers, t: TicketBag, w: WorkerId, g: FiberId, x: Fiber)
    requires CbFibers(ws, fs, t) && w < |ws| && ws[w].pc.Holding?
    requires forall v :: 0 <= v < |ws| && v != w ==> ws[v].cbFiber != Some(g)
    ensures CbFibers(ws[w := ws[w].(pc := Running(g, true), cbFiber := Some(g))], fs[g := x], t)
  {}

  lemma CallbackArmed(fs: Fibers, g: FiberId, x: Fiber)
    requires ArmedRun(fs) && !x.armed
    ensures ArmedRun(fs[g := x])
  {}

  /** The bookkeeping after a fiber switched out. */
  lemma CpuPost(ws: Workers, fs: Fibers, t: TicketBag, w: WorkerId, x: Worker, fiber: Fiber)
    requires Cpu(ws, fs, t) && w < |ws| && ws[w].pc.Returned?
    requires x.pc == Scanning && fiber.state != Exec && !fiber.armed
    requires
      || x.cbFiber == None
      || (!ws[w].pc.viaCb && x.cbFiber == ws[w].cbFiber)
      || (x.cbFiber == ws[w].cbFiber && fiber == Fiber(Init, false, None, None) && ws[w].pc.fiber !in t)
    ensures Cpu(ws[w := x], fs[ws[w].pc.fiber := fiber], t)
    ensures OffCpu(ws[w := x], ws[w].pc.fiber)
  {}
}
