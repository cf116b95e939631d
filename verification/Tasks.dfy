/** The option type used where the source has a null pointer or an empty std::function. */
module Wrappers {
  datatype Option<+T> = None | Some(value: T)
}

/** What a scheduler queues: fibers and callbacks, possibly pinned to one worker. */
module Tasks {
  import opened Wrappers

  type FiberId = nat
  type WorkerId = nat
  type CallId = nat

  datatype Event = Read | Write

  /** One (file descriptor, event) pair: the key of an event slot. */
  datatype Slot = Slot(fd: nat, event: Event)

  /** The closures the runtime itself builds, and everything else.
      Resume is the sleep hooks' bound `schedule(fiber)`; Timeout is the do_io timer lambda,
      whose weak pointer names a call; User is any callback handed in by the program. */
  datatype Callback =
    | Resume(fiber: FiberId)
    | Timeout(call: CallId, slot: Slot)
    | User(tag: nat)

  datatype Work = FiberWork(fiber: FiberId) | CallWork(cb: Callback)

  /** A queue entry; `thread` is None where the source stores -1. */
  datatype Task = Task(work: Work, thread: Option<WorkerId>)

  datatype FiberState = Init | Hold | Exec | Term | Ready | Except

  /** The fiber that this piece of work will wake, if it wakes one. */
  function TicketOf(work: Work): Option<FiberId> {
    match work
    case FiberWork(f) => Some(f)
    case CallWork(Resume(f)) => Some(f)
    case CallWork(_) => None
  }

  /** May worker `w` take this entry while the fibers in `exec` are still executing? */
  predicate Eligible(t: Task, w: WorkerId, exec: set<FiberId>) {
    && (t.thread == None || t.thread == Some(w))
    && !(t.work.FiberWork? && t.work.fiber in exec)
  }

  /** Index of the first entry worker `w` may take; the queue's length when there is none. */
  function FirstEligible(q: seq<Task>, w: WorkerId, exec: set<FiberId>): (k: nat)
    ensures k <= |q|
    ensures k < |q| ==> Eligible(q[k], w, exec)
    ensures forall i :: 0 <= i < k ==> !Eligible(q[i], w, exec)
  {
    if q == [] then 0
    else if Eligible(q[0], w, exec) then 0
    else 1 + FirstEligible(q[1..], w, exec)
  }

  /** The characterisation that a scanning loop establishes: no other index qualifies. */
  lemma FirstEligibleIs(q: seq<Task>, w: WorkerId, exec: set<FiberId>, k: nat)
    requires k <= |q|
    requires k < |q| ==> Eligible(q[k], w, exec)
    requires forall i :: 0 <= i < k ==> !Eligible(q[i], w, exec)
    ensures FirstEligible(q, w, exec) == k
  {}

  /** What a scan takes, and what it passes over: entries pinned to another worker, and fibers that are
      still executing. */
  lemma FirstEligibleMeans(q: seq<Task>, w: WorkerId, exec: set<FiberId>)
    ensures
      var k := FirstEligible(q, w, exec);
      && (k < |q| ==> q[k].thread in {None, Some(w)} && !(q[k].work.FiberWork? && q[k].work.fiber in exec))
      && forall i :: 0 <= i < k ==> (q[i].thread.Some? && q[i].thread.value != w) || (q[i].work.FiberWork? && q[i].work.fiber in exec)
  {}

  function RemoveAt<T>(q: seq<T>, k: nat): seq<T>
    requires k < |q|
  {
    q[..k] + q[k + 1..]
  }

  const TWO64: nat := 0x1_0000_0000_0000_0000

  /** The deadline that the timer code computes from the clock, in 64-bit arithmetic. */
  function Deadline(now: nat, ms: nat): (d: nat)
    ensures d < TWO64
  {
    (now + ms) % TWO64
  }
}
