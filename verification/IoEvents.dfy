/** Event registration: the fd contexts, their event slots, and the kernel's interest list. */
module IoEvents {
  import opened Wrappers
  import opened Tasks
  import Runtime

  const INITIAL_CONTEXTS := 32

  /** IOManager::FdContext::EventContext; `attached` says the scheduler pointer is set. */
  datatype EventContext = EventContext(attached: bool, fiber: Option<FiberId>, cb: Option<Callback>) {
    predicate Loaded() {
      attached && fiber.Some? != cb.Some?
    }

    function Content(): Work
      requires fiber.Some? != cb.Some?
    {
      if cb.Some? then CallWork(cb.value) else FiberWork(fiber.value)
    }
  }

  const EMPTY := EventContext(false, None, None)

  /** What the bookkeeping stands for: the pending wake-ups by (fd, event), and the run queue. */
  datatype Board = Board(slots: map<Slot, Work>, queue: seq<Task>)

  /** The content of slot `k`, if there is one, moves to the back of the queue. */
  function Fire(b: Board, k: Slot): Board {
    if k in b.slots then Board(b.slots - {k}, b.queue + [Task(b.slots[k], None)]) else b
  }

  function FireEvents(b: Board, fd: nat, events: set<Event>): Board {
    var b1 := if Read in events then Fire(b, Slot(fd, Read)) else b;
    if Write in events then Fire(b1, Slot(fd, Write)) else b1
  }

  function Registered(b: Board, fd: nat): set<Event> {
    set e | e in {Read, Write} && Slot(fd, e) in b.slots
  }

  /** One epoll result; `ok` is what the epoll_ctl call made while handling it returns. */
  datatype Ready = Ready(fd: nat, bits: set<Event>, failed: bool, ok: bool)

  /** The events a result stands for: an error or hang-up stands for all registered ones. */
  function Real(b: Board, r: Ready): set<Event> {
    if r.failed then r.bits + Registered(b, r.fd) else r.bits
  }

  function Deliver(b: Board, r: Ready): Board {
    if r.ok then FireEvents(b, r.fd, Real(b, r)) else b
  }

  function DeliverAll(b: Board, rs: seq<Ready>): Board
    decreases |rs|
  {
    if rs == [] then b else DeliverAll(Deliver(b, rs[0]), rs[1..])
  }

  /** What handling one result comes to: the assertion of triggerEvent fails exactly when the result
      names an unregistered event of an fd beside a registered one. */
  function Outcome(b: Board, r: Ready): HandleResult {
    if Registered(b, r.fd) * Real(b, r) == {} then Skipped
    else if !r.ok then Failed
    else if Real(b, r) <= Registered(b, r.fd) then Handled
    else HandleAborted
  }

  lemma NothingToDo(b: Board, r: Ready)
    requires Registered(b, r.fd) * Real(b, r) == {}
    ensures Deliver(b, r) == b
  {
    assert forall e :: e in Real(b, r) && e in Registered(b, r.fd) ==> e in Registered(b, r.fd) * Real(b, r);
  }

  /** Handling the results in turn runs into the assertion. */
  predicate Aborts(b: Board, rs: seq<Ready>)
    decreases |rs|
  {
    rs != [] && (Outcome(b, rs[0]) == HandleAborted || Aborts(Deliver(b, rs[0]), rs[1..]))
  }

  /** The step machine of Runtime moves slots and queue in the same way. */
  lemma MachineAgrees(s: Runtime.State, k: Slot)
    ensures var t := Runtime.Trigger(s, k);
            Board(t.slots, t.queue) == Fire(Board(s.slots, s.queue), k)
  {}

  lemma BothMean(b: Board, fd: nat)
    ensures
      var c, rd, wr := FireEvents(b, fd, {Read, Write}), Slot(fd, Read), Slot(fd, Write);
      && (forall k :: k in c.slots <==> k in b.slots && k.fd != fd)
      && (forall k :: k in c.slots ==> c.slots[k] == b.slots[k])
      && c.queue == b.queue + (if rd in b.slots then [Task(b.slots[rd], None)] else [])
                            + (if wr in b.slots then [Task(b.slots[wr], None)] else [])
  {
    forall k ensures k in FireEvents(b, fd, {Read, Write}).slots <==> k in b.slots && k.fd != fd {
      FireSlots(b, fd, {Read, Write}, k);
      assert k.event.Read? || k.event.Write?;
    }
  }

  /** Firing the unregistered events of an fd as well changes nothing. */
  lemma FireRegistered(b: Board, fd: nat, events: set<Event>, more: set<Event>)
    requires events <= more && forall e :: e in more && Slot(fd, e) in b.slots ==> e in events
    ensures FireEvents(b, fd, events) == FireEvents(b, fd, more)
  {}

  lemma KnownEvents(b: Board, fd: nat)
    ensures Registered(b, fd) <= {Read, Write} && forall e :: Slot(fd, e) in b.slots <==> e in Registered(b, fd)
  {
    forall e ensures Slot(fd, e) in b.slots <==> e in Registered(b, fd) {
      match e
      case Read =>
      case Write =>
    }
  }

  lemma FireOthers(b: Board, fd: nat, events: set<Event>)
    ensures var c := FireEvents(b, fd, events);
            forall k: Slot :: k.fd != fd ==> (k in c.slots <==> k in b.slots) && (k in c.slots ==> c.slots[k] == b.slots[k])
  {}

  lemma FireSlots(b: Board, fd: nat, events: set<Event>, k: Slot)
    ensures k in FireEvents(b, fd, events).slots <==> k in b.slots && !(k.fd == fd && k.event in events)
  {
    assert k == Slot(k.fd, k.event);
    match k.event
    case Read =>
    case Write =>
  }

  ghost predicate Delivered(b: Board, rs: seq<Ready>, k: Slot) {
    exists i :: 0 <= i < |rs| && rs[i].ok && rs[i].fd == k.fd && k.event in Real(b, rs[i])
  }

  ghost predicate DistinctFds(rs: seq<Ready>) {
    forall i, j :: 0 <= i < j < |rs| ==> rs[i].fd != rs[j].fd
  }

  lemma DeliverOne(b: Board, r: Ready)
    ensures var c := Deliver(b, r);
            && (forall k :: k in c.slots <==> k in b.slots && !(r.ok && r.fd == k.fd && k.event in Real(b, r)))
            && (forall k :: k in c.slots ==> c.slots[k] == b.slots[k])
    ensures Deliver(b, r).queue == b.queue + Woken(b, r)
  {
    var c := Deliver(b, r);
    forall k ensures k in c.slots <==> k in b.slots && !(r.ok && r.fd == k.fd && k.event in Real(b, r)) {
      FireSlots(b, r.fd, Real(b, r), k);
    }
  }

  /** One result, told by its own fields: an error or hang-up stands for every registered event. The slots
      that are due are emptied and their contents queued, the reader's first. */
  lemma DeliverMeans(b: Board, r: Ready)
    ensures
      var c, rd, wr := Deliver(b, r), Slot(r.fd, Read), Slot(r.fd, Write);
      && (forall k :: k in c.slots <==> k in b.slots && !(k.fd == r.fd && r.ok && (r.failed || k.event in r.bits)))
      && (forall k :: k in c.slots ==> c.slots[k] == b.slots[k])
      && c.queue == b.queue
           + (if rd in b.slots && r.ok && (r.failed || Read in r.bits) then [Task(b.slots[rd], None)] else [])
           + (if wr in b.slots && r.ok && (r.failed || Write in r.bits) then [Task(b.slots[wr], None)] else [])
  {
    hide Deliver;
    DeliverOne(b, r);
    forall k: Slot ensures k.fd == r.fd && k in b.slots ==> (k.event in Real(b, r) <==> r.failed || k.event in r.bits) {
      KnownEvents(b, r.fd);
      assert k.fd == r.fd ==> k == Slot(r.fd, k.event);
    }
  }

  lemma OutcomeMeans(b: Board, r: Ready)
    ensures Outcome(b, r) == Skipped <==> forall e :: Slot(r.fd, e) in b.slots ==> !r.failed && e !in r.bits
    ensures Outcome(b, r) == Failed <==> !r.ok && exists e :: Slot(r.fd, e) in b.slots && (r.failed || e in r.bits)
    ensures Outcome(b, r) == HandleAborted <==>
              r.ok && (exists e :: Slot(r.fd, e) in b.slots && (r.failed || e in r.bits))
              && (exists e :: e in r.bits && Slot(r.fd, e) !in b.slots)
  {
    hide Registered;
    KnownEvents(b, r.fd);
    var g, m := Registered(b, r.fd), Real(b, r);
    assert forall e :: e in g * m <==> Slot(r.fd, e) in b.slots && (r.failed || e in r.bits);
    if e :| Slot(r.fd, e) in b.slots && (r.failed || e in r.bits) {
      assert e in g * m;
    }
  }

  /** The tasks that one result puts into the queue, the reader's before the writer's. */
  function Woken(b: Board, r: Ready): seq<Task> {
    var rd, wr := Slot(r.fd, Read), Slot(r.fd, Write);
    (if r.ok && Read in Real(b, r) && rd in b.slots then [Task(b.slots[rd], None)] else [])
    + (if r.ok && Write in Real(b, r) && wr in b.slots then [Task(b.slots[wr], None)] else [])
  }

  function AllWoken(b: Board, rs: seq<Ready>): seq<Task> {
    if rs == [] then [] else Woken(b, rs[0]) + AllWoken(b, rs[1..])
  }

  /** Handling one fd leaves what the results for other fds stand for alone. */
  lemma OtherFd(b: Board, r: Ready, o: Ready)
    requires r.fd != o.fd
    ensures Registered(Deliver(b, r), o.fd) == Registered(b, o.fd)
    ensures Real(Deliver(b, r), o) == Real(b, o) && Woken(Deliver(b, r), o) == Woken(b, o)
  {
    DeliverOne(b, r);
  }

  lemma {:induction false} OtherFds(b: Board, r: Ready, rs: seq<Ready>)
    requires forall i :: 0 <= i < |rs| ==> rs[i].fd != r.fd
    ensures AllWoken(Deliver(b, r), rs) == AllWoken(b, rs)
    decreases |rs|
  {
    if rs != [] {
      OtherFd(b, r, rs[0]);
      OtherFds(b, r, rs[1..]);
    }
  }

  /** A whole batch, by the fields of its results: exactly the slots that some accepted result names, or
      stands for by an error, are emptied; each result in turn adds the contents of its own to the queue,
      the reader's first. */
  lemma DeliverAllMeans(b: Board, rs: seq<Ready>)
    requires DistinctFds(rs)
    ensures
      var c := DeliverAll(b, rs);
      && (forall k :: k in c.slots <==>
            k in b.slots && !exists i :: 0 <= i < |rs| && rs[i].fd == k.fd && rs[i].ok && (rs[i].failed || k.event in rs[i].bits))
      && (forall k :: k in c.slots ==> c.slots[k] == b.slots[k])
    ensures DeliverAll(b, []).queue == b.queue
    ensures forall i :: 0 <= i < |rs| ==>
              var r, rd, wr := rs[i], Slot(rs[i].fd, Read), Slot(rs[i].fd, Write);
              DeliverAll(b, rs[..i + 1]).queue == DeliverAll(b, rs[..i]).queue
                + (if rd in b.slots && r.ok && (r.failed || Read in r.bits) then [Task(b.slots[rd], None)] else [])
                + (if wr in b.slots && r.ok && (r.failed || Write in r.bits) then [Task(b.slots[wr], None)] else [])
  {
    hide Deliver, Real, Woken, Delivered, DeliverAll, DistinctFds;
    BatchSlots(b, rs);
    BatchQueueStart(b);
    forall i | 0 <= i < |rs| ensures DeliverAll(b, rs[..i + 1]).queue == DeliverAll(b, rs[..i]).queue + Woken(b, rs[i]) {
      BatchQueue(b, rs, i);
    }
    forall i | 0 <= i < |rs| ensures
              var r, rd, wr := rs[i], Slot(rs[i].fd, Read), Slot(rs[i].fd, Write);
              Woken(b, rs[i]) ==
                (if rd in b.slots && r.ok && (r.failed || Read in r.bits) then [Task(b.slots[rd], None)] else [])
                + (if wr in b.slots && r.ok && (r.failed || Write in r.bits) then [Task(b.slots[wr], None)] else [])
    {
      WokenMeans(b, rs[i]);
    }
    forall i | 0 <= i < |rs| ensures
              var r, rd, wr := rs[i], Slot(rs[i].fd, Read), Slot(rs[i].fd, Write);
              DeliverAll(b, rs[..i + 1]).queue == DeliverAll(b, rs[..i]).queue
                + (if rd in b.slots && r.ok && (r.failed || Read in r.bits) then [Task(b.slots[rd], None)] else [])
                + (if wr in b.slots && r.ok && (r.failed || Write in r.bits) then [Task(b.slots[wr], None)] else [])
    {
      var r, rd, wr := rs[i], Slot(rs[i].fd, Read), Slot(rs[i].fd, Write);
      Regroup(DeliverAll(b, rs[..i]).queue,
              if rd in b.slots && r.ok && (r.failed || Read in r.bits) then [Task(b.slots[rd], None)] else [],
              if wr in b.slots && r.ok && (r.failed || Write in r.bits) then [Task(b.slots[wr], None)] else []);
    }
  }

  lemma Regroup(a: seq<Task>, b: seq<Task>, c: seq<Task>)
    ensures a + (b + c) == a + b + c
  {}

  lemma BatchSlots(b: Board, rs: seq<Ready>)
    requires DistinctFds(rs)
    ensures
      var c := DeliverAll(b, rs);
      && (forall k :: k in c.slots <==>
            k in b.slots && !exists i :: 0 <= i < |rs| && rs[i].fd == k.fd && rs[i].ok && (rs[i].failed || k.event in rs[i].bits))
      && (forall k :: k in c.slots ==> c.slots[k] == b.slots[k])
  {
    hide Deliver, Real, Woken, Delivered, DeliverAll;
    BatchEffect(b, rs);
    forall k | k in b.slots
      ensures Delivered(b, rs, k) <==> exists i :: 0 <= i < |rs| && rs[i].fd == k.fd && rs[i].ok && (rs[i].failed || k.event in rs[i].bits)
    {
      DeliveredMeans(b, rs, k);
    }
  }

  lemma BatchQueueStart(b: Board)
    ensures DeliverAll(b, []).queue == b.queue
  {}

  lemma BatchQueue(b: Board, rs: seq<Ready>, i: nat)
    requires i < |rs| && DistinctFds(rs)
    ensures DeliverAll(b, rs[..i + 1]).queue == DeliverAll(b, rs[..i]).queue + Woken(b, rs[i])
  {
    hide Deliver, Real, Woken, Delivered, DeliverAll, AllWoken;
    assert rs[..i + 1] == rs[..i] + [rs[i]];
    BatchEffect(b, rs[..i]);
    BatchEffect(b, rs[..i + 1]);
    WokenMore(b, rs[..i], rs[i]);
  }

  lemma WokenMeans(b: Board, r: Ready)
    ensures
      var rd, wr := Slot(r.fd, Read), Slot(r.fd, Write);
      Woken(b, r) ==
        (if rd in b.slots && r.ok && (r.failed || Read in r.bits) then [Task(b.slots[rd], None)] else [])
        + (if wr in b.slots && r.ok && (r.failed || Write in r.bits) then [Task(b.slots[wr], None)] else [])
  {}

  lemma DeliveredMeans(b: Board, rs: seq<Ready>, k: Slot)
    requires k in b.slots
    ensures Delivered(b, rs, k) <==> exists i :: 0 <= i < |rs| && rs[i].fd == k.fd && rs[i].ok && (rs[i].failed || k.event in rs[i].bits)
  {
    hide Registered;
    KnownEvents(b, k.fd);
    assert k == Slot(k.fd, k.event);
    assert forall i :: 0 <= i < |rs| && rs[i].fd == k.fd ==> (k.event in Real(b, rs[i]) <==> rs[i].failed || k.event in rs[i].bits);
  }

  lemma {:induction false} WokenMore(b: Board, rs: seq<Ready>, r: Ready)
    ensures AllWoken(b, rs + [r]) == AllWoken(b, rs) + Woken(b, r)
    decreases |rs|
  {
    hide Woken;
    if rs == [] {
      assert [r][1..] == [];
    } else {
      assert (rs + [r])[1..] == rs[1..] + [r];
      WokenMore(b, rs[1..], r);
    }
  }

  /** The same by the functions of one result. */
  lemma {:induction false} BatchEffect(b: Board, rs: seq<Ready>)
    requires DistinctFds(rs)
    ensures var c := DeliverAll(b, rs);
            && (forall k :: k in c.slots <==> k in b.slots && !Delivered(b, rs, k))
            && (forall k :: k in c.slots ==> c.slots[k] == b.slots[k])
            && c.queue == b.queue + AllWoken(b, rs)
    decreases |rs|
  {
    hide Deliver, Real, Woken, Delivered;
    if rs == [] {
      NothingDelivered(b);
    } else {
      var d := Deliver(b, rs[0]);
      DeliverOne(b, rs[0]);
      BatchEffect(d, rs[1..]);
      OtherFds(b, rs[0], rs[1..]);
      forall k ensures k in d.slots && !Delivered(d, rs[1..], k) <==> k in b.slots && !Delivered(b, rs, k) {
        DeliveredRest(b, rs, k);
      }
    }
  }

  lemma NothingDelivered(b: Board)
    ensures forall k :: !Delivered(b, [], k)
  {}

  lemma DeliveredRest(b: Board, rs: seq<Ready>, k: Slot)
    requires rs != [] && DistinctFds(rs)
    ensures var d := Deliver(b, rs[0]);
            k in d.slots && !Delivered(d, rs[1..], k) <==> k in b.slots && !Delivered(b, rs, k)
  {
    hide Deliver, Real;
    DeliverOne(b, rs[0]);
    forall i | 1 <= i < |rs| ensures Real(Deliver(b, rs[0]), rs[i]) == Real(b, rs[i]) {
      OtherFd(b, rs[0], rs[i]);
    }
    var d, t := Deliver(b, rs[0]), rs[1..];
    if k !in d.slots {
      if k in b.slots {
        assert rs[0].ok && rs[0].fd == k.fd && k.event in Real(b, rs[0]);
      }
    } else if Delivered(b, rs, k) {
      var i :| 0 <= i < |rs| && rs[i].ok && rs[i].fd == k.fd && k.event in Real(b, rs[i]);
      assert t[i - 1] == rs[i];
    }
    if Delivered(d, t, k) {
      var i :| 0 <= i < |t| && t[i].ok && t[i].fd == k.fd && k.event in Real(d, t[i]);
      assert t[i] == rs[i + 1];
    }
  }

  lemma MachineAgreesBoth(s: Runtime.State, fd: nat, events: set<Event>)
    ensures var t := Runtime.TriggerBoth(s, fd, events);
            Board(t.slots, t.queue) == FireEvents(Board(s.slots, s.queue), fd, events)
  {
    hide Runtime.Trigger, Fire;
    MachineAgrees(s, Slot(fd, Read));
    MachineAgrees(s, Slot(fd, Write));
    MachineAgrees(Runtime.Trigger(s, Slot(fd, Read)), Slot(fd, Write));
  }

  lemma RemoveSlot(m: map<Slot, Work>, k: Slot)
    requires k in m
    ensures |m - {k}| == |m| - 1
  {}

  datatype Op = Add | Mod | Del

  datatype AddResult = Added | Refused | AddAborted

  datatype HandleResult = Handled | Skipped | Failed | HandleAborted

  class FdContext {
    const fd: nat
    var events: set<Event>
    var read: EventContext
    var write: EventContext

    constructor (fd: nat)
      ensures this.fd == fd && events == {} && read == EMPTY && write == EMPTY
    {
      this.fd, events, read, write := fd, {}, EMPTY, EMPTY;
    }

    function Context(e: Event): EventContext
      reads this
    {
      if e == Read then read else write
    }

    /** A slot is empty exactly when its bit is clear. */
    ghost predicate Consistent()
      reads this
    {
      forall e :: if e in events then Context(e).Loaded() else Context(e) == EMPTY
    }

    /** The wake-up stored for a registered event. */
    ghost function Stored(e: Event): Work
      requires Consistent() && e in events
      reads this
    {
      Context(e).Content()
    }

    method SetContext(e: Event, ctx: EventContext)
      modifies this`read, this`write
      ensures Context(e) == ctx
      ensures forall o :: o != e ==> Context(o) == old(Context(o))
    {
      if e == Read { read := ctx; } else { write := ctx; }
    }

    /** Sets the bit and fills the empty slot with the callback or else with the fiber. */
    method Load(e: Event, cb: Option<Callback>, self: FiberId)
      requires Consistent() && e !in events
      modifies this
      ensures Consistent() && events == old(events) + {e}
      ensures Stored(e) == if cb.Some? then CallWork(cb.value) else FiberWork(self)
      ensures forall o :: o in old(events) ==> Stored(o) == old(Stored(o))
    {
      events := events + {e};
      var c := Context(e);
      assert c.fiber == None && c.cb == None && !c.attached;
      if cb.Some? {
        SetContext(e, c.(attached := true, cb := cb));
      } else {
        SetContext(e, c.(attached := true, fiber := Some(self)));
      }
    }

    /** Clears the bit and empties the slot. */
    method Clear(e: Event)
      requires Consistent() && e in events
      modifies this
      ensures Consistent() && events == old(events) - {e}
      ensures forall o :: o in events ==> Stored(o) == old(Stored(o))
    {
      events := events - {e};
      SetContext(e, EMPTY);
    }

    /** Clears the bit and hands the slot's content to the scheduler, which takes it out of the slot. */
    method Trigger(e: Event) returns (task: Task)
      requires Consistent() && e in events
      modifies this
      ensures Consistent() && events == old(events) - {e}
      ensures forall o :: o in events ==> Stored(o) == old(Stored(o))
      ensures task == Task(old(Stored(e)), None)
    {
      events := events - {e};
      var c := Context(e);
      if c.cb.Some? {
        task := Task(CallWork(c.cb.value), None);
        SetContext(e, c.(cb := None));
      } else {
        task := Task(FiberWork(c.fiber.value), None);
        SetContext(e, c.(fiber := None));
      }
      SetContext(e, Context(e).(attached := false));
    }
  }

  class IoManager {
    var contexts: seq<FdContext>
    var pending: int
    var queue: seq<Task>
    ghost var kernel: map<nat, set<Event>>   // fd -> registered interest
    ghost var slots: map<Slot, Work>

    ghost function View(): Board
      reads this
    {
      Board(slots, queue)
    }

    /** The slots of one fd are empty exactly where its bits are clear. */
    ghost predicate SlotsAt(fd: nat)
      requires fd < |contexts|
      reads this`contexts, this`slots, contexts[fd]
    {
      && contexts[fd].Consistent()
      && (forall e :: Slot(fd, e) in slots <==> e in contexts[fd].events)
      && (forall e :: e in contexts[fd].events ==> slots[Slot(fd, e)] == contexts[fd].Stored(e))
    }

    /** The kernel's interest in one fd is its event mask. */
    ghost predicate KernelAt(fd: nat)
      requires fd < |contexts|
      reads this`contexts, this`kernel, contexts[fd]
    {
      && (fd in kernel <==> contexts[fd].events != {})
      && (fd in kernel ==> kernel[fd] == contexts[fd].events)
    }

    ghost predicate At(fd: nat)
      requires fd < |contexts|
      reads this`contexts, this`slots, this`kernel, contexts[fd]
    {
      SlotsAt(fd) && KernelAt(fd)
    }

    ghost predicate Bounded()
      reads this`contexts, this`slots, this`kernel
    {
      && |contexts| >= INITIAL_CONTEXTS
      && (forall i :: 0 <= i < |contexts| ==> contexts[i].fd == i)
      && (forall k :: k in slots ==> k.fd < |contexts|)
      && (forall fd: nat :: fd in kernel ==> fd < |contexts|)
    }

    ghost predicate Valid()
      reads this, contexts
    {
      && Bounded()
      && (forall fd: nat :: fd < |contexts| ==> At(fd))
      && pending == |slots|
    }

    /** Only the bookkeeping of `fd` has changed. */
    twostate predicate OnlyAt(fd: nat)
      reads this, contexts
    {
      && contexts == old(contexts)
      && (forall i :: 0 <= i < |contexts| && i != fd ==> unchanged(contexts[i]))
      && (forall k: Slot :: k.fd != fd ==> (k in slots <==> k in old(slots)) && (k in slots ==> slots[k] == old(slots)[k]))
      && (forall o: nat :: o != fd ==> (o in kernel <==> o in old(kernel)) && (o in kernel ==> kernel[o] == old(kernel)[o]))
    }

    twostate lemma Restored(fd: nat)
      requires old(Bounded()) && forall i: nat :: i < |old(contexts)| ==> old(At(i))
      requires fd < |old(contexts)| && OnlyAt(fd) && At(fd)
      ensures Bounded() && forall i: nat :: i < |contexts| ==> At(i)
    {
      forall i: nat | i < |contexts| && i != fd ensures At(i) {
        assert old(At(i));
      }
    }

    constructor ()
      ensures Valid() && fresh(contexts) && View() == Board(map[], []) && pending == 0
    {
      contexts, pending, queue, kernel, slots := [], 0, [], map[], map[];
      new;
      ContextResize(INITIAL_CONTEXTS);
    }

    /** Grows the table; every new place gets a context of its own. */
    method ContextResize(size: nat)
      requires |contexts| <= size && forall i :: 0 <= i < |contexts| ==> contexts[i].fd == i
      modifies this`contexts
      ensures |contexts| == size && contexts[..|old(contexts)|] == old(contexts)
      ensures forall i :: |old(contexts)| <= i < size ==>
                fresh(contexts[i]) && contexts[i].fd == i && contexts[i].events == {}
                && contexts[i].read == EMPTY && contexts[i].write == EMPTY
    {
      var i := |contexts|;
      while i < size
        invariant |old(contexts)| <= i <= size && |contexts| == i && contexts[..|old(contexts)|] == old(contexts)
        invariant forall j :: |old(contexts)| <= j < i ==>
                    fresh(contexts[j]) && contexts[j].fd == j && contexts[j].events == {}
                    && contexts[j].read == EMPTY && contexts[j].write == EMPTY
      {
        var ctx := new FdContext(i);
        contexts := contexts + [ctx];
        i := i + 1;
      }
    }

    /** epoll_ctl; its precondition is what the kernel accepts: ADD an fd that is not in the
        interest list, MOD or DEL one that is. `ok` is the kernel's answer. */
    ghost method EpollCtl(op: Op, fd: nat, mask: set<Event>, ok: bool)
      requires op == Add <==> fd !in kernel
      modifies this`kernel
      ensures kernel == if !ok then old(kernel) else if op == Del then old(kernel) - {fd} else old(kernel)[fd := mask]
    {
      if ok {
        kernel := if op == Del then kernel - {fd} else kernel[fd := mask];
      }
    }

    /** Looks the context up, growing the table to one and a half times `fd` when it is too short. */
    method Lookup(fd: nat) returns (ctx: FdContext)
      requires Valid()
      modifies this`contexts
      ensures Valid() && fd < |contexts| && ctx == contexts[fd]
      ensures old(contexts) <= contexts && fresh(contexts[|old(contexts)|..])
    {
      if |contexts| <= fd {
        assert forall i: nat :: i < |contexts| ==> At(i);
        ContextResize(fd * 3 / 2);
        forall i: nat | i < |contexts| ensures At(i) {
          if i < |old(contexts)| {
            assert old(At(i));
            assert contexts[i] == contexts[..|old(contexts)|][i];
          }
        }
      }
      ctx := contexts[fd];
    }

    /** Registers `e` on `fd` for a callback or, without one, for the running fiber `self`. */
    method AddEvent(fd: nat, e: Event, cb: Option<Callback>, self: FiberId, ok: bool) returns (result: AddResult)
      requires Valid()
      modifies this, contexts
      ensures Valid() && old(contexts) <= contexts && fresh(contexts[|old(contexts)|..])
      ensures result == if Slot(fd, e) in old(slots) then AddAborted else if ok then Added else Refused
      ensures result != Added ==> View() == old(View()) && kernel == old(kernel) && pending == old(pending)
      ensures result == Added ==>
                View() == Board(old(slots)[Slot(fd, e) := if cb.Some? then CallWork(cb.value) else FiberWork(self)], old(queue))
    {
      var ctx := Lookup(fd);
      assert At(fd);
      if e in ctx.events {
        return AddAborted;
      }
      result := Register(ctx, e, cb, self, ok);
    }

    /** The part of addEvent that runs under the context's own lock. */
    method Register(ctx: FdContext, e: Event, cb: Option<Callback>, self: FiberId, ok: bool) returns (result: AddResult)
      requires Valid() && ctx.fd < |contexts| && ctx == contexts[ctx.fd] && e !in ctx.events
      modifies this`pending, this`kernel, this`slots, ctx
      ensures Valid()
      ensures result == if ok then Added else Refused
      ensures result != Added ==> slots == old(slots) && kernel == old(kernel) && pending == old(pending)
      ensures result == Added ==>
                slots == old(slots)[Slot(ctx.fd, e) := if cb.Some? then CallWork(cb.value) else FiberWork(self)]
    {
      assert At(ctx.fd);
      var op := if ctx.events != {} then Mod else Add;
      EpollCtl(op, ctx.fd, ctx.events + {e}, ok);
      if !ok {
        Restored(ctx.fd);
        return Refused;
      }
      pending := pending + 1;
      ctx.Load(e, cb, self);
      slots := slots[Slot(ctx.fd, e) := ctx.Stored(e)];
      Restored(ctx.fd);
      return Added;
    }

    ghost method DropSlot(fd: nat, e: Event)
      requires Slot(fd, e) in slots
      modifies this`slots
      ensures slots == old(slots) - {Slot(fd, e)} && |slots| == |old(slots)| - 1
    {
      RemoveSlot(slots, Slot(fd, e));
      slots := slots - {Slot(fd, e)};
    }

    /** Forgets the registration without waking anybody. */
    method DelEvent(fd: nat, e: Event, ok: bool) returns (done: bool)
      requires Valid()
      modifies this, contexts
      ensures Valid() && contexts == old(contexts)
      ensures done <==> Slot(fd, e) in old(slots) && ok
      ensures View() == if done then Board(old(slots) - {Slot(fd, e)}, old(queue)) else old(View())
      ensures !done ==> kernel == old(kernel) && pending == old(pending)
    {
      assert fd < |contexts| ==> At(fd);
      if |contexts| <= fd || e !in contexts[fd].events {
        return false;
      }
      var ctx := contexts[fd];
      var left := ctx.events - {e};
      var op := if left != {} then Mod else Del;
      EpollCtl(op, fd, left, ok);
      if !ok {
        Restored(fd);
        return false;
      }
      ClearEvent(fd, e);
      Restored(fd);
      return true;
    }

    /** The rest of delEvent: count, mask and slot. */
    method ClearEvent(fd: nat, e: Event)
      requires fd < |contexts| && SlotsAt(fd) && e in contexts[fd].events && pending == |slots|
      modifies this`pending, this`slots, contexts[fd]
      ensures SlotsAt(fd) && pending == |slots| && contexts[fd].events == old(contexts[fd].events) - {e}
      ensures slots == old(slots) - {Slot(fd, e)}
    {
      pending := pending - 1;
      contexts[fd].Clear(e);
      DropSlot(fd, e);
    }

    /** triggerEvent together with the decrement that follows it everywhere. */
    method TriggerEvent(fd: nat, e: Event)
      requires fd < |contexts| && SlotsAt(fd) && e in contexts[fd].events && pending == |slots|
      requires Bounded()
      modifies this`pending, this`queue, this`slots, contexts[fd]
      ensures SlotsAt(fd) && pending == |slots| && contexts[fd].events == old(contexts[fd].events) - {e}
      ensures View() == Fire(old(View()), Slot(fd, e))
    {
      var task := contexts[fd].Trigger(e);
      queue := queue + [task];
      pending := pending - 1;
      DropSlot(fd, e);
    }

    /** Triggers the event once and forgets it. */
    method CancelEvent(fd: nat, e: Event, ok: bool) returns (done: bool)
      requires Valid()
      modifies this, contexts
      ensures Valid() && contexts == old(contexts)
      ensures done <==> Slot(fd, e) in old(slots) && ok
      ensures View() == if done then Fire(old(View()), Slot(fd, e)) else old(View())
      ensures done ==> slots == old(slots) - {Slot(fd, e)} && queue == old(queue) + [Task(old(slots)[Slot(fd, e)], None)]
      ensures !done ==> kernel == old(kernel) && pending == old(pending)
    {
      assert fd < |contexts| ==> At(fd);
      if |contexts| <= fd || e !in contexts[fd].events {
        return false;
      }
      var ctx := contexts[fd];
      var left := ctx.events - {e};
      var op := if left != {} then Mod else Del;
      EpollCtl(op, fd, left, ok);
      if !ok {
        Restored(fd);
        return false;
      }
      TriggerEvent(fd, e);
      Restored(fd);
      return true;
    }

    /** Triggers the given registered events, reading before writing. */
    method TriggerEvents(fd: nat, events: set<Event>)
      requires fd < |contexts| && SlotsAt(fd) && events <= contexts[fd].events && pending == |slots|
      requires Bounded()
      modifies this`pending, this`queue, this`slots, contexts[fd]
      ensures SlotsAt(fd) && pending == |slots| && contexts[fd].events == old(contexts[fd].events) - events
      ensures View() == FireEvents(old(View()), fd, events)
    {
      if Read in events {
        TriggerEvent(fd, Read);
      }
      if Write in events {
        TriggerEvent(fd, Write);
      }
    }

    /** The registered events of an fd are its mask; an fd beyond the table has none. */
    lemma RegisteredAt(fd: nat)
      requires Valid()
      ensures Registered(View(), fd) == if fd < |contexts| then contexts[fd].events else {}
    {
      if fd < |contexts| {
        assert At(fd);
      }
    }

    /** Triggers everything registered on `fd` and takes it out of the interest list. */
    method CancelAll(fd: nat, ok: bool) returns (done: bool)
      requires Valid()
      modifies this, contexts
      ensures Valid() && contexts == old(contexts)
      ensures done <==> Registered(old(View()), fd) != {} && ok
      ensures View() == if done then FireEvents(old(View()), fd, {Read, Write}) else old(View())
      ensures done <==> ok && exists e :: Slot(fd, e) in old(slots)
      ensures done ==>
                && (forall k :: k in slots <==> k in old(slots) && k.fd != fd)
                && (forall k :: k in slots ==> slots[k] == old(slots)[k])
                && queue == old(queue)
                     + (if Slot(fd, Read) in old(slots) then [Task(old(slots)[Slot(fd, Read)], None)] else [])
                     + (if Slot(fd, Write) in old(slots) then [Task(old(slots)[Slot(fd, Write)], None)] else [])
      ensures !done ==> kernel == old(kernel) && pending == old(pending)
    {
      hide Valid, Fire, FireEvents, Registered;
      RegisteredAt(fd);
      KnownEvents(View(), fd);
      BothMean(View(), fd);
      if |contexts| <= fd {
        return false;
      }
      done := CancelLocked(contexts[fd], fd, ok);
    }

    /** The part that runs under the context's own lock. */
    method CancelLocked(ctx: FdContext, fd: nat, ok: bool) returns (done: bool)
      requires Valid() && fd < |contexts| && ctx == contexts[fd]
      modifies this, ctx
      ensures Valid() && contexts == old(contexts)
      ensures done <==> Registered(old(View()), fd) != {} && ok
      ensures View() == if done then FireEvents(old(View()), fd, {Read, Write}) else old(View())
      ensures !done ==> kernel == old(kernel) && pending == old(pending)
    {
      hide Fire, FireEvents, Registered;
      assert At(fd);
      RegisteredAt(fd);
      if ctx.events == {} {
        return false;
      }
      EpollCtl(Del, fd, {}, ok);
      if !ok {
        Restored(fd);
        return false;
      }
      KnownEvents(View(), fd);
      FireRegistered(View(), fd, ctx.events, {Read, Write});
      FireOthers(View(), fd, ctx.events);
      TriggerEvents(fd, ctx.events);
      assert ctx.events == {};
      Restored(fd);
      return true;
    }

    /** Handles one epoll result. The mask is not applied to the delivered bits, so a result that names
        an unregistered event beside a registered one runs into the assertion of triggerEvent. */
    method HandleReady(r: Ready) returns (result: HandleResult)
      requires Valid() && r.fd < |contexts|
      modifies this, contexts
      ensures contexts == old(contexts)
      ensures result == Outcome(old(View()), r)
      ensures result != HandleAborted ==> Valid() && View() == Deliver(old(View()), r)
      ensures result != HandleAborted && result != Handled ==> View() == old(View()) && kernel == old(kernel)
      ensures result == Skipped <==> forall e :: Slot(r.fd, e) in old(slots) ==> !r.failed && e !in r.bits
      ensures result == HandleAborted <==>
                r.ok && (exists e :: Slot(r.fd, e) in old(slots) && (r.failed || e in r.bits))
                && (exists e :: e in r.bits && Slot(r.fd, e) !in old(slots))
      ensures result != HandleAborted ==>
                && (forall k :: k in slots <==> k in old(slots) && !(k.fd == r.fd && r.ok && (r.failed || k.event in r.bits)))
                && (forall k :: k in slots ==> slots[k] == old(slots)[k])
                && queue == old(queue)
                     + (if Slot(r.fd, Read) in old(slots) && r.ok && (r.failed || Read in r.bits)
                        then [Task(old(slots)[Slot(r.fd, Read)], None)] else [])
                     + (if Slot(r.fd, Write) in old(slots) && r.ok && (r.failed || Write in r.bits)
                        then [Task(old(slots)[Slot(r.fd, Write)], None)] else [])
    {
      hide Valid, Fire, FireEvents, Registered, Deliver, Outcome;
      OutcomeMeans(View(), r);
      DeliverMeans(View(), r);
      result := HandleLocked(contexts[r.fd], r);
    }

    /** The part that runs under the context's own lock. */
    method HandleLocked(ctx: FdContext, r: Ready) returns (result: HandleResult)
      requires Valid() && r.fd < |contexts| && ctx == contexts[r.fd]
      modifies this, ctx
      ensures contexts == old(contexts)
      ensures result == Outcome(old(View()), r)
      ensures result != HandleAborted ==> Valid() && View() == Deliver(old(View()), r)
      ensures result != HandleAborted && result != Handled ==> View() == old(View()) && kernel == old(kernel)
    {
      hide Fire, FireEvents, Registered;
      assert At(r.fd);
      RegisteredAt(r.fd);
      var arrived := if r.failed then r.bits + ctx.events else r.bits;
      if ctx.events * arrived == {} {
        NothingToDo(View(), r);
        return Skipped;
      }
      var left := ctx.events - arrived;
      EpollCtl(if left != {} then Mod else Del, r.fd, left, r.ok);
      if !r.ok {
        Restored(r.fd);
        return Failed;
      }
      if arrived <= ctx.events {
        FireOthers(View(), r.fd, arrived);
        TriggerEvents(r.fd, arrived);
        Restored(r.fd);
        return Handled;
      }
      return HandleAborted;
    }

    /** The event loop over one epoll_wait, whatever bits it delivered. */
    method HandleAll(rs: seq<Ready>) returns (aborted: bool)
      requires Valid() && forall i :: 0 <= i < |rs| ==> rs[i].fd < |contexts|
      modifies this, contexts
      ensures contexts == old(contexts)
      ensures aborted <==> Aborts(old(View()), rs)
      ensures !aborted ==> Valid() && View() == DeliverAll(old(View()), rs)
      ensures !aborted && DistinctFds(rs) ==>
                && (forall k :: k in slots <==>
                      k in old(slots)
                      && !exists i :: 0 <= i < |rs| && rs[i].fd == k.fd && rs[i].ok && (rs[i].failed || k.event in rs[i].bits))
                && (forall k :: k in slots ==> slots[k] == old(slots)[k])
    {
      hide Deliver, Outcome, Real, Valid;
      ghost var b := View();
      if DistinctFds(rs) {
        BatchSlots(b, rs);
      }
      var i := 0;
      while i < |rs|
        invariant 0 <= i <= |rs| && Valid() && contexts == old(contexts)
        invariant DeliverAll(View(), rs[i..]) == DeliverAll(b, rs)
        invariant Aborts(View(), rs[i..]) <==> Aborts(b, rs)
      {
        var result := HandleReady(rs[i]);
        if result == HandleAborted {
          return true;
        }
        assert rs[i..][1..] == rs[i + 1..];
        i := i + 1;
      }
      return false;
    }

    lemma SlotsInTable()
      requires Valid()
      ensures forall k :: k in View().slots ==> k.fd < |contexts|
    {}

    /** Bits that the kernel is still asked for never make the loop abort. */
    lemma AskedNeverAborts(rs: seq<Ready>)
      requires Valid() && DistinctFds(rs)
      requires forall i :: 0 <= i < |rs| ==> rs[i].fd in kernel && rs[i].bits <= kernel[rs[i].fd]
      ensures (forall i :: 0 <= i < |rs| ==> rs[i].fd < |contexts|) && !Aborts(View(), rs)
    {
      hide Valid, Aborts;
      KernelMeansRegistered();
      RegisteredNeverAborts(View(), rs);
    }

    lemma KernelMeansRegistered()
      requires Valid()
      ensures forall fd: nat :: fd in kernel ==> fd < |contexts| && kernel[fd] == Registered(View(), fd)
    {
      forall fd: nat | fd in kernel ensures fd < |contexts| && kernel[fd] == Registered(View(), fd) {
        assert At(fd);
      }
    }
  }

  /** Handling one fd changes nothing about the outcome for another. */
  lemma OutcomeOther(b: Board, r: Ready, o: Ready)
    requires r.fd != o.fd
    ensures Outcome(Deliver(b, r), o) == Outcome(b, o)
  {
    hide Deliver, Real, Registered;
    OtherFd(b, r, o);
  }

  /** A batch of distinct fds aborts exactly when some result names an unregistered event beside a
      registered one, both judged before the batch; the order does not matter. */
  lemma {:induction false} AbortsExactly(b: Board, rs: seq<Ready>)
    requires DistinctFds(rs)
    ensures Aborts(b, rs) <==> exists i :: 0 <= i < |rs| && Outcome(b, rs[i]) == HandleAborted
    decreases |rs|
  {
    hide Deliver, Outcome;
    if rs != [] {
      var d := Deliver(b, rs[0]);
      AbortsExactly(d, rs[1..]);
      forall i | 1 <= i < |rs| ensures Outcome(d, rs[i]) == Outcome(b, rs[i]) {
        OutcomeOther(b, rs[0], rs[i]);
      }
      if j :| 0 <= j < |rs| - 1 && Outcome(d, rs[1..][j]) == HandleAborted {
        assert rs[1..][j] == rs[j + 1];
      }
      if i :| 1 <= i < |rs| && Outcome(b, rs[i]) == HandleAborted {
        assert rs[i] == rs[1..][i - 1];
      }
    }
  }

  /** So a batch of distinct fds with bits that are still registered never aborts. */
  lemma RegisteredNeverAborts(b: Board, rs: seq<Ready>)
    requires DistinctFds(rs) && forall i :: 0 <= i < |rs| ==> rs[i].bits <= Registered(b, rs[i].fd)
    ensures !Aborts(b, rs)
  {
    hide Aborts;
    AbortsExactly(b, rs);
  }

  /** The input on which idle aborts: a fiber waits to read from descriptor 5, and the result for it names
      the write event as well. */
  method UnmaskedResultAborts(fiber: FiberId) returns (m: IoManager, result: HandleResult)
    ensures result == HandleAborted
  {
    m := new IoManager();
    ghost var before := m.contexts;
    var _ := m.AddEvent(5, Read, None, fiber, true);
    assert Slot(5, Read) in m.View().slots && Slot(5, Write) !in m.View().slots;
    m.SlotsInTable();
    assert m.contexts == before + m.contexts[|before|..];
    assert Read in Registered(m.View(), 5) && Write !in Registered(m.View(), 5);
    result := m.HandleReady(Ready.Ready(5, {Read, Write}, false, true));
  }
}
