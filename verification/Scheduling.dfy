/** Scheduler and Fiber as objects: the scan of the run queue, scheduling by one and in batches, and
    what a worker does with the task it took. */
module Scheduling {
  import opened Wrappers
  import opened Tasks
  import Runtime
  import Safety
  import Guarantees

  predicate PinnedElsewhere(t: Task, w: WorkerId) {
    t.thread.Some? && t.thread.value != w
  }

  /** Whether a scan by `w` must wake another worker: it passed over an entry pinned elsewhere, or
      entries follow the one it takes. */
  ghost predicate MustTickle(q: seq<Task>, w: WorkerId, exec: set<FiberId>) {
    var k := FirstEligible(q, w, exec);
    (exists i :: 0 <= i < k && PinnedElsewhere(q[i], w)) || k + 1 < |q|
  }

  /** The queue after a scan by `w`. */
  function Rest(q: seq<Task>, w: WorkerId, exec: set<FiberId>): seq<Task> {
    var k := FirstEligible(q, w, exec);
    if k < |q| then RemoveAt(q, k) else q
  }

  /** Nothing that any worker could run stays behind silently: without a tickle, what is left is
      waiting for fibers that are still executing. */
  lemma NoSilentWork(q: seq<Task>, w: WorkerId, exec: set<FiberId>, other: WorkerId, i: nat)
    requires i < |Rest(q, w, exec)| && Eligible(Rest(q, w, exec)[i], other, exec)
    ensures MustTickle(q, w, exec)
  {
    var k := FirstEligible(q, w, exec);
    if k + 1 >= |q| {
      assert i < k && Rest(q, w, exec)[i] == q[i] && !Eligible(q[i], w, exec);
      assert PinnedElsewhere(q[i], w);
    }
  }

  /** The tasks made from the callbacks that are there. */
  function TasksOf(cbs: seq<Option<Callback>>): seq<Task> {
    if cbs == [] then []
    else TasksOf(cbs[..|cbs| - 1])
         + (if cbs[|cbs| - 1].Some? then [Task(CallWork(cbs[|cbs| - 1].value), None)] else [])
  }

  /** The places that hold a callback, in order. */
  ghost predicate Picks(picked: seq<nat>, cbs: seq<Option<Callback>>) {
    && (forall j :: 0 <= j < |picked| ==> picked[j] < |cbs| && cbs[picked[j]].Some?)
    && (forall j, k :: 0 <= j < k < |picked| ==> picked[j] < picked[k])
    && (forall i :: 0 <= i < |cbs| && cbs[i].Some? ==> i in picked)
  }

  lemma PicksMore(picked: seq<nat>, cbs: seq<Option<Callback>>)
    requires cbs != [] && Picks(picked, cbs[..|cbs| - 1])
    ensures Picks(if cbs[|cbs| - 1].Some? then picked + [|cbs| - 1] else picked, cbs)
  {
    var front, more := cbs[..|cbs| - 1], if cbs[|cbs| - 1].Some? then picked + [|cbs| - 1] else picked;
    forall i | 0 <= i < |cbs| && cbs[i].Some? ensures i in more {
      assert i < |front| ==> front[i] == cbs[i];
    }
  }

  /** Place by place: exactly the places that hold a callback become tasks, in order and unpinned. */
  lemma TasksMean(cbs: seq<Option<Callback>>) returns (picked: seq<nat>)
    ensures |picked| == |TasksOf(cbs)| && forall j :: 0 <= j < |picked| ==> picked[j] < |cbs|
    ensures forall j, k :: 0 <= j < k < |picked| ==> picked[j] < picked[k]
    ensures forall i :: 0 <= i < |cbs| ==> (i in picked <==> cbs[i].Some?)
    ensures forall j :: 0 <= j < |picked| ==>
              cbs[picked[j]].Some? && TasksOf(cbs)[j] == Task(CallWork(cbs[picked[j]].value), None)
  {
    hide TasksOf;
    picked := TasksPick(cbs);
  }

  lemma {:induction false} TasksPick(cbs: seq<Option<Callback>>) returns (picked: seq<nat>)
    ensures Picks(picked, cbs) && |picked| == |TasksOf(cbs)|
    ensures forall j :: 0 <= j < |picked| ==> picked[j] < |cbs| && TaskOf(cbs[picked[j]]) == [TasksOf(cbs)[j]]
    decreases |cbs|
  {
    hide Picks, TasksOf, TaskOf;
    TasksStep(cbs);
    if cbs == [] {
      picked := [];
      NothingPicked();
    } else {
      var last := |cbs| - 1;
      var front := cbs[..last];
      var before := TasksPick(front);
      PicksMore(before, cbs);
      picked := if cbs[last].Some? then before + [last] else before;
      assert forall j :: 0 <= j < |before| ==> front[before[j]] == cbs[before[j]];
    }
  }

  function TaskOf(cb: Option<Callback>): seq<Task> {
    if cb.Some? then [Task(CallWork(cb.value), None)] else []
  }

  lemma TasksStep(cbs: seq<Option<Callback>>)
    ensures cbs == [] ==> TasksOf(cbs) == []
    ensures cbs != [] ==> TasksOf(cbs) == TasksOf(cbs[..|cbs| - 1]) + TaskOf(cbs[|cbs| - 1])
    ensures cbs != [] ==> |TaskOf(cbs[|cbs| - 1])| == if cbs[|cbs| - 1].Some? then 1 else 0
  {}

  lemma NothingPicked()
    ensures Picks([], [])
  {}

  class Scheduler {
    var fibers: seq<Task>
    var active: nat

    constructor ()
      ensures fibers == [] && active == 0
    {
      fibers, active := [], 0;
    }

    /** The scan of `run` for worker `w`; `exec` are the fibers whose state is EXEC. */
    method Take(w: WorkerId, exec: set<FiberId>) returns (taken: Option<Task>, tickle: bool)
      modifies this
      ensures var k := FirstEligible(old(fibers), w, exec);
              taken == (if k < |old(fibers)| then Some(old(fibers)[k]) else None)
      ensures fibers == Rest(old(fibers), w, exec)
      ensures active == old(active) + if taken.Some? then 1 else 0
      ensures tickle <==> MustTickle(old(fibers), w, exec)
      ensures taken.Some? ==>
                && (taken.value.thread == None || taken.value.thread == Some(w))
                && !(taken.value.work.FiberWork? && taken.value.work.fiber in exec)
                && exists k :: 0 <= k < |old(fibers)|
                     && taken.value == old(fibers)[k] && fibers == old(fibers)[..k] + old(fibers)[k + 1..]
                     && (forall i :: 0 <= i < k ==>
                           var t := old(fibers)[i];
                           (t.thread.Some? && t.thread.value != w) || (t.work.FiberWork? && t.work.fiber in exec))
                     && (tickle <==>
                           (k + 1 < |old(fibers)|
                            || exists i :: 0 <= i < k && old(fibers)[i].thread.Some? && old(fibers)[i].thread.value != w))
      ensures taken == None ==>
                && fibers == old(fibers)
                && (forall t :: t in fibers ==>
                      (t.thread.Some? && t.thread.value != w) || (t.work.FiberWork? && t.work.fiber in exec))
                && (tickle <==> exists t :: t in fibers && t.thread.Some? && t.thread.value != w)
    {
      taken, tickle := None, false;
      var i := 0;
      while i < |fibers|
        invariant 0 <= i <= |fibers| && fibers == old(fibers) && active == old(active)
        invariant forall j :: 0 <= j < i ==> !Eligible(fibers[j], w, exec)
        invariant tickle <==> exists j :: 0 <= j < i && PinnedElsewhere(fibers[j], w)
      {
        var t := fibers[i];
        if t.thread.Some? && t.thread.value != w {
          assert PinnedElsewhere(t, w);
          tickle := true;
        } else if !(t.work.FiberWork? && t.work.fiber in exec) {
          break;
        }
        i := i + 1;
      }
      FirstEligibleIs(fibers, w, exec, i);
      if i < |fibers| {
        taken := Some(fibers[i]);
        tickle := tickle || i + 1 < |fibers|;
        fibers := fibers[..i] + fibers[i + 1..];
        active := active + 1;
      }
    }

    /** scheduleNoLock: an empty task is dropped; the queue was empty before exactly when a worker
        has to be woken. */
    method ScheduleNoLock(work: Option<Work>, thread: Option<WorkerId>) returns (needTickle: bool)
      modifies this`fibers
      ensures fibers == old(fibers) + if work.Some? then [Task(work.value, thread)] else []
      ensures needTickle <==> old(fibers) == []
    {
      needTickle := fibers == [];
      if work.Some? {
        fibers := fibers + [Task(work.value, thread)];
      }
    }

    /** The batch form moves each callback out of the caller's place. */
    method ScheduleBatch(cbs: array<Option<Callback>>) returns (needTickle: bool)
      modifies this`fibers, cbs
      ensures fibers == old(fibers) + TasksOf(old(cbs[..]))
      ensures forall i :: 0 <= i < cbs.Length ==> cbs[i] == None
      ensures needTickle <==> cbs.Length > 0 && old(fibers) == []
    {
      needTickle := false;
      var i := 0;
      while i < cbs.Length
        invariant 0 <= i <= cbs.Length
        invariant fibers == old(fibers) + TasksOf(old(cbs[..])[..i])
        invariant forall j :: 0 <= j < i ==> cbs[j] == None
        invariant forall j :: i <= j < cbs.Length ==> cbs[j] == old(cbs[..])[j]
        invariant needTickle <==> i > 0 && old(fibers) == []
      {
        var cb := cbs[i];
        cbs[i] := None;
        assert old(cbs[..])[..i + 1][..i] == old(cbs[..])[..i];
        var need := ScheduleNoLock(if cb.Some? then Some(CallWork(cb.value)) else None, None);
        needTickle := need || needTickle;
        i := i + 1;
      }
      assert old(cbs[..])[..i] == old(cbs[..]);
    }
  }

  /** How the code of a fiber gives the worker back. */
  datatype Ending = YieldsReady | YieldsHold | Returns | Throws

  /** The state in which the worker finds the fiber. */
  function Found(how: Ending): FiberState {
    match how
    case YieldsReady => Ready
    case YieldsHold => Exec
    case Returns => Term
    case Throws => Except
  }

  /** The step of the machine in which a fiber leaves in this way. */
  function Leaves(how: Ending): Runtime.FiberStep {
    match how
    case YieldsReady => Runtime.YieldReady
    case YieldsHold => Runtime.YieldHold
    case Returns => Runtime.Finish(false)
    case Throws => Runtime.Finish(true)
  }

  /** In every reachable state, the end of a turn and the worker's bookkeeping together are, in the machine,
      what SwitchOut, RunFiber and RunCallback do. */
  lemma TurnAgrees(s: Runtime.State, w: WorkerId, how: Ending)
    requires Safety.Reachable(s) && Runtime.CanRun(s, w, Leaves(how))
    ensures
      var f, viaCb := Runtime.Current(s, w), s.workers[w].pc.viaCb;
      var left := Runtime.RunStep(s, w, Leaves(how));
      && Runtime.CanPostRun(left, w) && left.fibers[f].state == Found(how)
      && var t := Runtime.PostRunStep(left, w);
         && t.fibers[f].state == Runtime.Settled(Runtime.Fiber(Found(how), false, None, None), viaCb).state
         && t.queue == s.queue + (if how == YieldsReady then [Task(FiberWork(f), None)] else [])
         && t.active == s.active - 1 && t.workers[w].pc == Runtime.Scanning
         && (viaCb ==> t.workers[w].cbFiber == if how in {Returns, Throws} then Some(f) else None)
  {
    hide Safety.Reachable;
    Guarantees.AssertionsNeverFail(s, Runtime.InFiber(w, Leaves(how)));
    var left := Runtime.RunStep(s, w, Leaves(how));
    Safety.ReachableNext(s, Runtime.InFiber(w, Leaves(how)));
    Guarantees.AssertionsNeverFail(left, Runtime.OnWorker(w, Runtime.PostRun));
  }

  class Fiber {
    const id: FiberId
    var state: FiberState
    var cb: Option<Callback>

    constructor (id: FiberId, cb: Option<Callback>)
      ensures this.id == id && state == Init && this.cb == cb
    {
      this.id, state, this.cb := id, Init, cb;
    }

    method Reset(cb: Option<Callback>)
      requires Guarantees.Resettable(state)
      modifies this
      ensures state == Init && this.cb == cb
      ensures Guarantees.LifeEdge(old(state), state)
    {
      this.cb := cb;
      state := Init;
    }

    method SwapIn()
      requires state in {Init, Hold, Ready}
      modifies this`state
      ensures state == Exec && Guarantees.LifeEdge(old(state), state)
    {
      state := Exec;
    }

    /** YieldToReady, YieldToHold, and the two ways in which MainFunc ends. */
    method SwitchOut(how: Ending)
      requires state == Exec
      modifies this
      ensures state == Found(how) && Guarantees.LifeEdge(old(state), state)
      ensures cb == if how == Returns then None else old(cb)
    {
      match how {
        case YieldsReady => state := Ready;
        case YieldsHold =>
        case Returns => cb := None; state := Term;
        case Throws => state := Except;
      }
    }
  }

  class Worker {
    const scheduler: Scheduler
    var cbFiber: Fiber?

    constructor (scheduler: Scheduler)
      ensures this.scheduler == scheduler && cbFiber == null
    {
      this.scheduler, cbFiber := scheduler, null;
    }

    /** The callback fiber is null or INIT. */
    ghost predicate AtLoopHead()
      reads this, cbFiber
    {
      cbFiber != null ==> cbFiber.state == Init
    }

    /** A fiber was taken: run it, then requeue it, park it or let it be. A fiber that has already
        ended is not run. */
    method RunFiber(f: Fiber, how: Ending)
      requires f.state != Exec && scheduler.active > 0
      modifies f, scheduler
      ensures scheduler.active == old(scheduler.active) - 1
      ensures old(AtLoopHead()) && f != cbFiber ==> AtLoopHead()
      ensures if old(f.state) in {Term, Except} then
                f.state == old(f.state) && scheduler.fibers == old(scheduler.fibers)
              else
                && f.state == Runtime.Settled(Runtime.Fiber(Found(how), false, None, None), false).state
                && f.state == (match how case YieldsReady => Ready case YieldsHold => Hold case Returns => Term case Throws => Except)
                && scheduler.fibers == old(scheduler.fibers) + if how == YieldsReady then [Task(FiberWork(f.id), None)] else []
    {
      if f.state == Term || f.state == Except {
        scheduler.active := scheduler.active - 1;
        return;
      }
      f.SwapIn();
      f.SwitchOut(how);
      scheduler.active := scheduler.active - 1;
      if f.state == Ready {
        var _ := scheduler.ScheduleNoLock(Some(FiberWork(f.id)), None);
      } else if f.state != Term && f.state != Except {
        f.state := Hold;
      }
    }

    /** A callback was taken: it runs in the worker's callback fiber, which the worker gives up when
        the callback has not ended. */
    method RunCallback(cb: Callback, newId: FiberId, how: Ending) returns (f: Fiber)
      requires AtLoopHead() && scheduler.active > 0
      modifies this`cbFiber, cbFiber, scheduler
      ensures AtLoopHead() && scheduler.active == old(scheduler.active) - 1
      ensures if old(cbFiber) != null then f == old(cbFiber) else fresh(f) && f.id == newId
      ensures cbFiber == if how in {Returns, Throws} then f else null
      ensures f.state == Runtime.Settled(Runtime.Fiber(Found(how), false, None, None), true).state
      ensures f.state == match how case YieldsReady => Ready case YieldsHold => Hold case Returns => Init case Throws => Init
      ensures f.cb == if how in {Returns, Throws} then None else Some(cb)
      ensures scheduler.fibers == old(scheduler.fibers) + if how == YieldsReady then [Task(FiberWork(f.id), None)] else []
    {
      if cbFiber != null {
        cbFiber.Reset(Some(cb));
      } else {
        cbFiber := new Fiber(newId, Some(cb));
      }
      f := cbFiber;
      cbFiber.SwapIn();
      cbFiber.SwitchOut(how);
      scheduler.active := scheduler.active - 1;
      if cbFiber.state == Ready {
        var _ := scheduler.ScheduleNoLock(Some(FiberWork(cbFiber.id)), None);
        cbFiber := null;
      } else if cbFiber.state == Except || cbFiber.state == Term {
        cbFiber.Reset(None);
      } else {
        cbFiber.state := Hold;
        cbFiber := null;
      }
    }
  }
}
