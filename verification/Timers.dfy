/** The timer set: an ordered set of timers keyed by deadline and then by address. */
module Timers {
  import opened Wrappers
  import opened Tasks

  const FOREVER: nat := TWO64 - 1
  const ROLLOVER_GAP: nat := 60 * 60 * 1000

  // ----- keys -----

  datatype Key = Key(next: nat, address: nat)

  /** Timer::Comparator. */
  predicate Less(a: Key, b: Key) {
    a.next < b.next || (a.next == b.next && a.address < b.address)
  }

  ghost predicate Ordered(ks: seq<Key>) {
    forall i, j :: 0 <= i < j < |ks| ==> Less(ks[i], ks[j])
  }

  /** std::set::lower_bound: the first position whose key is not before `k`. */
  function LowerBound(ks: seq<Key>, k: Key): (i: nat)
    ensures i <= |ks|
    ensures forall j :: 0 <= j < i ==> Less(ks[j], k)
    ensures i < |ks| ==> !Less(ks[i], k)
  {
    if ks == [] || !Less(ks[0], k) then 0 else 1 + LowerBound(ks[1..], k)
  }

  /** In an ordered set, looking up a member's own key finds that member. */
  lemma {:induction false} FindFinds(ks: seq<Key>, i: nat)
    requires Ordered(ks) && i < |ks|
    ensures LowerBound(ks, ks[i]) == i
  {
    if i == 0 {
    } else {
      FindFinds(ks[1..], i - 1);
    }
  }

  function InsertAt<T>(s: seq<T>, i: nat, x: T): seq<T>
    requires i <= |s|
  {
    s[..i] + [x] + s[i..]
  }

  lemma InsertOrdered(ks: seq<Key>, k: Key)
    requires Ordered(ks) && k !in ks
    ensures Ordered(InsertAt(ks, LowerBound(ks, k), k))
  {
    var i := LowerBound(ks, k);
    var r := InsertAt(ks, i, k);
    forall j | i <= j < |ks| ensures Less(k, ks[j]) {
      assert !Less(ks[i], k) && ks[i] != k && ks[j] != k;
      if i < j { assert Less(ks[i], ks[j]); }
    }
    forall a, b | 0 <= a < b < |r| ensures Less(r[a], r[b]) {
      assert r[a] == if a < i then ks[a] else if a == i then k else ks[a - 1];
      assert r[b] == if b < i then ks[b] else if b == i then k else ks[b - 1];
    }
  }

  lemma RemoveOrdered(ks: seq<Key>, i: nat)
    requires Ordered(ks) && i < |ks|
    ensures Ordered(RemoveAt(ks, i))
  {}

  /** Where the expired timers end: past every deadline up to `now`, ties included, whatever the
      address of the probe that lower_bound is given. */
  function ExpiredEnd(ks: seq<Key>, now: nat, probe: nat): (i: nat)
    ensures i <= |ks|
  {
    SkipTies(ks, now, LowerBound(ks, Key(now, probe)))
  }

  function SkipTies(ks: seq<Key>, now: nat, from: nat): (i: nat)
    requires from <= |ks|
    ensures from <= i <= |ks|
    ensures forall j :: from <= j < i ==> ks[j].next == now
    ensures i < |ks| ==> ks[i].next != now
    decreases |ks| - from
  {
    if from < |ks| && ks[from].next == now then SkipTies(ks, now, from + 1) else from
  }

  lemma ExpiredAreDue(ks: seq<Key>, now: nat, probe: nat)
    requires Ordered(ks)
    ensures forall j :: 0 <= j < |ks| ==> (j < ExpiredEnd(ks, now, probe) <==> ks[j].next <= now)
  {}

  /** `Timer::reset`: start at the clock, or at `next_ - ms`, and add `ms`; both operations wrap.
      Without `from_now` this is the old deadline. */
  function ResetDeadline(next: nat, ms: nat, fromNow: bool, now: nat): (d: nat)
    requires next < TWO64 && ms < TWO64
    ensures d == if fromNow then Deadline(now, ms) else next
  {
    var start := if fromNow then now else if ms <= next then next - ms else next + TWO64 - ms;
    Deadline(start, ms)
  }

  lemma NeverLate(ms: nat, now: nat)
    ensures Deadline(now, ms) < TWO64 && Deadline(now, ms) <= now + ms
  {}

  lemma Unwrapped(ms: nat, now: nat)
    requires now + ms < TWO64
    ensures Deadline(now, ms) == now + ms
  {}

  // ----- the classes -----

  class Timer {
    const address: nat
    const recurring: bool
    const manager: TimerManager
    var ms: nat
    var next: nat
    var cb: Option<Callback>

    constructor (address: nat, ms: nat, cb: Callback, recurring: bool, manager: TimerManager, now: nat)
      ensures this.address == address && this.ms == ms && this.cb == Some(cb)
      ensures this.recurring == recurring && this.manager == manager && next == Deadline(now, ms)
    {
      this.address, this.recurring, this.manager := address, recurring, manager;
      this.ms, this.cb, this.next := ms, Some(cb), Deadline(now, ms);
    }

    function SortKey(): Key
      reads this`next
    {
      Key(next, address)
    }

    /** True, and out of the set, unless the callback is already gone. */
    method Cancel() returns (done: bool)
      requires manager.Valid() && this in manager.all
      modifies this, manager
      ensures manager.Valid() && manager.all == old(manager.all)
      ensures done == old(cb).Some?
      ensures cb == None && this !in manager.timers
      ensures forall t :: t != this ==> (t in manager.timers <==> t in old(manager.timers))
      ensures next == old(next) && ms == old(ms)
      ensures manager.fired == old(manager.fired) && manager.dead == old(manager.dead) + {this}
      ensures manager.tickled == old(manager.tickled) && manager.seen == old(manager.seen)
      ensures old(manager.NoLost()) ==> manager.NoLost()
      ensures forall now :: old(manager.OnSchedule(now)) ==> manager.OnSchedule(now)
    {
      hide InOrder, TimerManager.NoLost, TimerManager.Known, TimerManager.OnSchedule;
      if cb.Some? {
        cb := None;
        manager.Extract(this);
        done := true;
      } else {
        done := false;
      }
      manager.dead := manager.dead + {this};
    }

    /** Take the timer out, move its deadline, put it back; nobody is notified. */
    method Refresh(now: nat) returns (done: bool)
      requires manager.Valid() && this in manager.all
      modifies this`next, manager`timers
      ensures manager.Valid() && done == old(cb).Some?
      ensures forall t :: t in manager.timers <==> t in old(manager.timers)
      ensures next == if done then Deadline(now, ms) else old(next)
      ensures old(manager.NoLost()) ==>
                (manager.NoLost() <==> !done || manager.tickled || manager.NotBefore(Deadline(now, ms)))
      ensures old(manager.OnSchedule(now)) ==> manager.OnSchedule(now)
      ensures old(manager.OnSchedule(now)) && now + ms < TWO64 && old(manager.NoLost()) ==> manager.NoLost()
    {
      hide InOrder, TimerManager.Ledger, TimerManager.NoLost, TimerManager.NotBefore, Deadline;
      NeverLate(ms, now);
      if cb == None {
        return false;
      }
      if manager.NoLost() && manager.OnSchedule(now) && now + ms < TWO64 {
        manager.StartsLater(this, now);
      }
      manager.Move(this, Deadline(now, ms));
      return true;
    }

    /** A new period; `fromNow` also starts it afresh, otherwise the deadline stays what it was. */
    method Reset(newMs: nat, fromNow: bool, now: nat) returns (done: bool)
      requires manager.Valid() && this in manager.all && newMs < TWO64
      modifies this`next, this`ms, manager`timers, manager`tickled, manager`notified
      ensures manager.Valid()
      ensures done == ((ms == old(ms) && old(ms) == newMs && !fromNow) || old(cb).Some?)
      ensures forall t :: t in manager.timers <==> t in old(manager.timers)
      ensures ms == if old(cb).Some? then newMs else old(ms)
      ensures next == if old(cb).Some? && fromNow then Deadline(now, newMs) else old(next)
      ensures old(manager.NoLost()) ==> manager.NoLost()
      ensures old(manager.OnSchedule(now)) && (fromNow || next <= now + ms) ==> manager.OnSchedule(now)
    {
      hide InOrder, TimerManager.Ledger, Deadline;
      NeverLate(newMs, now);
      if ms == newMs && !fromNow {
        return true;
      }
      if cb == None {
        return false;
      }
      manager.Extract(this);
      ms := newMs;
      next := ResetDeadline(next, newMs, fromNow, now);
      manager.Add(this);
      return true;
    }
  }

  ghost predicate InOrder(ts: seq<Timer>)
    reads ts`next
  {
    forall i, j :: 0 <= i < j < |ts| ==> Less(ts[i].SortKey(), ts[j].SortKey())
  }

  function KeysOf(ts: seq<Timer>): (ks: seq<Key>)
    reads ts
    ensures |ks| == |ts|
    ensures forall i :: 0 <= i < |ts| ==> ks[i] == ts[i].SortKey()
    ensures InOrder(ts) <==> Ordered(ks)
  {
    var ks := seq(|ts|, i requires 0 <= i < |ts| reads ts => ts[i].SortKey());
    assert forall i :: 0 <= i < |ts| ==> ks[i] == ts[i].SortKey();
    ks
  }

  lemma InsertMembers(ts: seq<Timer>, i: nat, t: Timer)
    requires i <= |ts|
    ensures forall u :: u in InsertAt(ts, i, t) <==> u in ts || u == t
  {}

  lemma InsertInOrder(ts: seq<Timer>, t: Timer)
    requires InOrder(ts) && forall j :: 0 <= j < |ts| ==> ts[j].address != t.address
    ensures InOrder(InsertAt(ts, LowerBound(KeysOf(ts), t.SortKey()), t))
  {
    var ks := KeysOf(ts);
    assert t.SortKey() !in ks by {
      assert forall j :: 0 <= j < |ks| ==> ks[j].address == ts[j].address;
    }
    InsertOrdered(ks, t.SortKey());
    var i := LowerBound(ks, t.SortKey());
    var r := InsertAt(ts, i, t);
    assert KeysOf(r) == InsertAt(ks, i, t.SortKey());
  }

  class TimerManager {
    var timers: seq<Timer>           // the std::set, in its order
    var tickled: bool
    var previous: nat
    ghost var all: set<Timer>        // every timer this manager created
    ghost var seen: Option<nat>      // earliest deadline at the last getNextTimer, None when there was none
    ghost var notified: bool         // onTimerInsertedAtFront was called since then
    ghost var fired: multiset<Timer> // how often each timer's callback was handed out
    ghost var dead: set<Timer>       // one-shot timers that fired, and cancelled timers

    ghost predicate Known()
      reads this`all, this`timers, all`next
    {
      && (forall t :: t in all ==> t.manager == this && t.next < TWO64)
      && (forall t, u :: t in all && u in all && t.address == u.address ==> t == u)
      && (forall t :: t in timers ==> t in all)
    }

    ghost predicate Valid()
      reads this, all
    {
      && Known()
      && Members()
      && InOrder(timers)
      && (tickled ==> notified)
      && Ledger()
    }

    /** A timer is in the set exactly when it has a callback. */
    ghost predicate Members()
      reads this`all, this`timers, all`cb
    {
      forall t :: t in all ==> (t.cb.Some? <==> t in timers)
    }

    /** One-shot timers fire at most once, and a timer that fired or was cancelled has no callback. */
    ghost predicate Ledger()
      reads this`all, this`dead, this`fired, all`cb
    {
      && dead <= all && (forall t :: t in dead ==> t.cb == None)
      && (forall t :: t in fired ==> t in all)
      && (forall t :: t in all && !t.recurring ==> fired[t] <= 1 && (fired[t] == 1 ==> t in dead))
    }

    /** A deadline earlier than the one the last getNextTimer reported has been announced. */
    ghost predicate NoLost()
      reads this`timers, this`seen, this`tickled, timers`next
    {
      timers != [] && (seen == None || timers[0].next < seen.value) ==> tickled
    }

    /** No timer is due later than its period from `now`: so it is while the clock does not go back and
        `reset` always starts afresh. */
    ghost predicate OnSchedule(now: nat)
      reads this`all, all`next, all`ms
    {
      forall t :: t in all ==> t.next <= now + t.ms
    }

    /** On schedule, a period that starts now ends no earlier than what was announced. */
    lemma StartsLater(t: Timer, now: nat)
      requires Known() && InOrder(timers) && t in timers && NoLost() && OnSchedule(now) && now + t.ms < TWO64
      ensures tickled || NotBefore(Deadline(now, t.ms))
    {}

    /** std::set::find on a member. */
    method Find(t: Timer) returns (i: nat)
      requires Known() && InOrder(timers) && t in timers
      ensures i < |timers| && timers[i] == t
    {
      var ks := KeysOf(timers);
      ghost var k :| 0 <= k < |timers| && timers[k] == t;
      FindFinds(ks, k);
      i := LowerBound(ks, t.SortKey());
    }

    method Erase(i: nat)
      requires Known() && InOrder(timers) && i < |timers|
      modifies this`timers
      ensures timers == RemoveAt(old(timers), i) && InOrder(timers)
      ensures old(timers[i]) !in timers
      ensures forall t :: t != old(timers[i]) ==> (t in timers <==> t in old(timers))
      ensures old(NoLost()) ==> NoLost()
    {
      var ks := KeysOf(timers);
      RemoveOrdered(ks, i);
      timers := timers[..i] + timers[i + 1..];
      assert KeysOf(timers) == RemoveAt(ks, i);
    }

    /** The find-and-erase pair with which a timer leaves the set before its key changes. */
    method Extract(t: Timer)
      requires Known() && InOrder(timers) && t in timers
      modifies this`timers
      ensures Known() && InOrder(timers)
      ensures t !in timers && forall u :: u != t ==> (u in timers <==> u in old(timers))
      ensures timers != [] ==> old(timers) != [] && old(timers)[0].next <= timers[0].next
      ensures old(NoLost()) ==> NoLost()
    {
      var i := Find(t);
      Erase(i);
    }

    /** The deadline `d` would not be earlier than what the last getNextTimer reported. */
    ghost predicate NotBefore(d: nat)
      reads this`seen
    {
      seen.Some? && seen.value <= d
    }

    /** std::set::insert of a timer that is not in the set. */
    method Insert(t: Timer)
      requires Known() && InOrder(timers) && t in all && t !in timers
      modifies this`timers
      ensures Known() && InOrder(timers)
      ensures forall u :: u in timers <==> u in old(timers) || u == t
      ensures timers[0] == t || (old(timers) != [] && timers[0] == old(timers)[0])
      ensures old(timers) != [] ==> timers[0].next <= old(timers)[0].next
      ensures timers[0].next <= t.next
    {
      var ks := KeysOf(timers);
      var i := LowerBound(ks, t.SortKey());
      OtherAddresses(t);
      InsertInOrder(timers, t);
      InsertMembers(timers, i, t);
      timers := timers[..i] + [t] + timers[i..];
    }

    lemma OtherAddresses(t: Timer)
      requires Known() && t in all && t !in timers
      ensures forall j :: 0 <= j < |timers| ==> timers[j].address != t.address
    {}

    /** Out of the set, a new key, and back in. */
    method Move(t: Timer, d: nat)
      requires Known() && InOrder(timers) && t in timers && d < TWO64
      modifies this`timers, t`next
      ensures Known() && InOrder(timers) && t.next == d
      ensures forall u :: u in timers <==> u in old(timers)
      ensures old(NoLost()) ==> (NoLost() <==> tickled || NotBefore(d))
    {
      hide InOrder;
      Extract(t);
      t.next := d;
      Insert(t);
    }

    /** TimerManager::addTimer(val, lock): insert, and announce a new front once per getNextTimer. */
    method Add(t: Timer)
      requires Known() && InOrder(timers) && (tickled ==> notified) && t in all && t !in timers
      modifies this`timers, this`tickled, this`notified
      ensures Known() && InOrder(timers) && (tickled ==> notified)
      ensures forall u :: u in timers <==> u in old(timers) || u == t
      ensures tickled <==> old(tickled) || timers[0] == t
      ensures old(NoLost()) ==> NoLost()
    {
      Insert(t);
      var atFront := timers[0] == t && !tickled;
      if atFront {
        tickled := true;
        notified := true;
      }
    }

    /** The new timer becomes known; it is not in the set yet. */
    ghost method Enter(t: Timer)
      requires Valid() && t !in all && t.manager == this && t.next < TWO64 && forall u :: u in all ==> u.address != t.address
      modifies this`all
      ensures Known() && InOrder(timers) && Ledger() && all == old(all) + {t} && t !in timers
      ensures forall u :: u in all && u != t ==> (u.cb.Some? <==> u in timers)
      ensures old(NoLost()) ==> NoLost()
    {
      hide InOrder, NoLost;
      all := all + {t};
    }

    method AddTimer(ms: nat, cb: Callback, recurring: bool, address: nat, now: nat) returns (t: Timer)
      requires Valid() && forall u :: u in all ==> u.address != address
      modifies this
      ensures Valid() && fresh(t) && all == old(all) + {t} && dead == old(dead) && fired == old(fired)
      ensures t.cb == Some(cb) && t.ms == ms && t.recurring == recurring && t.next == Deadline(now, ms)
      ensures t.address == address && t.manager == this
      ensures forall u :: u in timers <==> u in old(timers) || u == t
      ensures old(NoLost()) ==> NoLost()
      ensures old(OnSchedule(now)) ==> OnSchedule(now)
    {
      hide InOrder, Deadline, NoLost, Known, Ledger;
      NeverLate(ms, now);
      t := new Timer(address, ms, cb, recurring, this, now);
      Enter(t);
      Add(t);
    }

    /** Milliseconds to the earliest deadline; the front may then be announced again. */
    method GetNextTimer(now: nat) returns (wait: nat)
      requires Valid()
      modifies this`tickled, this`seen, this`notified
      ensures Valid() && NoLost() && !tickled && !notified
      ensures seen == if timers == [] then None else Some(timers[0].next)
      ensures timers == [] ==> wait == FOREVER
      ensures timers != [] ==> wait == if timers[0].next <= now then 0 else timers[0].next - now
    {
      tickled, notified := false, false;
      if timers == [] {
        seen := None;
        return FOREVER;
      }
      seen := Some(timers[0].next);
      return if now >= timers[0].next then 0 else timers[0].next - now;
    }

    constructor (now: nat)
      ensures Valid() && NoLost() && timers == [] && all == {} && previous == now
    {
      timers, tickled, previous := [], false, now;
      all, seen, notified, fired, dead := {}, None, false, multiset{}, {};
    }

    /** The clock went back by more than an hour, or went back at all while it showed less than an hour:
        then the unsigned subtraction wraps and the second comparison is true of any time. */
    method DetectClockRollover(now: nat) returns (rollover: bool)
      requires previous < TWO64
      modifies this`previous
      ensures rollover <==> now < old(previous) && (old(previous) < ROLLOVER_GAP || old(previous) - now > ROLLOVER_GAP)
      ensures previous == now
    {
      rollover := now < previous && now < (previous + TWO64 - ROLLOVER_GAP) % TWO64;
      previous := now;
    }

    /** What one call hands out and what it leaves: the expired timers' callbacks in deadline order,
        all of them after a rollover; the later timers stay, the recurring ones start again at `now`. */
    twostate predicate Listed(now: nat, new expired: seq<Timer>, new cbs: seq<Callback>)
      requires old(previous) < TWO64 && ExpiredPart(old(timers), expired)
      reads this`timers, this`all, all
    {
      && (if RolledOver(now, old(previous)) then expired == old(timers)
          else forall i :: 0 <= i < |old(timers)| ==> (i < |expired| <==> old(timers[i].next) <= now))
      && (forall i, j :: 0 <= i < j < |expired| ==> old(expired[i].next) <= old(expired[j].next))
      && |cbs| == |expired| && (forall i :: 0 <= i < |cbs| ==> Some(cbs[i]) == old(expired[i].cb))
      && Rearmed(now, expired)
    }

    twostate predicate Rearmed(now: nat, new expired: seq<Timer>)
      reads this`timers, this`all, all
    {
      && (forall t :: t in all ==> (t in timers <==> t in old(timers) && (t in expired ==> t.recurring)))
      && (forall t :: t in timers && t in all ==>
            t.cb == old(t.cb) && t.next == if t in expired then Deadline(now, t.ms) else old(t.next))
    }

    /** Hands out the callbacks of the expired timers. */
    method ListExpired(now: nat, probe: nat) returns (cbs: seq<Callback>, ghost expired: seq<Timer>)
      requires Valid() && previous < TWO64
      modifies this, all`next, all`cb
      ensures Valid() && all == old(all) && previous == if old(timers) == [] then old(previous) else now
      ensures tickled == old(tickled) && notified == old(notified) && seen == old(seen)
      ensures ExpiredPart(old(timers), expired) && Listed(now, expired, cbs)
      ensures fired == old(fired) + multiset(expired) && forall t :: t in expired ==> t !in old(dead)
      ensures old(NoLost()) && Rearms(old(timers), now) && !RolledOver(now, old(previous)) ==> NoLost()
      ensures old(OnSchedule(now)) ==> OnSchedule(now)
    {
      hide InOrder, NoLost, RolledOver, Known, Members, Rearms, Rearmed, Ledger, Deadline, OnSchedule, Listed;
      if timers == [] {
        NothingListed(now);
        return [], [];
      }
      MembersLive();
      MembersAre();
      InOrderNexts(timers);
      cbs, expired := Expire(now, probe);
      Accounted(now, expired, cbs);
      Record(expired);
    }

    /** What follows from the raw effect of one expiry. */
    twostate lemma Accounted(now: nat, new expired: seq<Timer>, new cbs: seq<Callback>)
      requires old(previous) < TWO64 && old(timers) != []
      requires unchanged(this`tickled, this`seen, this`all, this`dead, this`fired) && old(Ledger())
      requires forall t :: t in old(timers) ==> t in all && t !in dead
      requires forall t :: t in all ==> (old(t.cb).Some? <==> t in old(timers))
      requires forall i, j :: 0 <= i <= j < |old(timers)| ==> old(timers[i].next) <= old(timers[j].next)
      requires |expired| <= |old(timers)| && forall i :: 0 <= i < |expired| ==> expired[i] == old(timers)[i]
      requires if RolledOver(now, old(previous)) then expired == old(timers)
               else forall i :: 0 <= i < |old(timers)| ==> (i < |expired| <==> old(timers[i].next) <= now)
      requires |cbs| == |expired| && forall i :: 0 <= i < |cbs| ==> Some(cbs[i]) == old(timers[i].cb)
      requires forall t :: t in timers <==> t in old(timers) && (t in expired ==> t.recurring)
      requires forall t :: t in all ==> t.ms == old(t.ms)
      requires forall t :: t in all ==> t.cb == if t in expired && !t.recurring then None else old(t.cb)
      requires forall t :: t in all ==> t.next == if t in expired && t.recurring then Deadline(now, t.ms) else old(t.next)
      ensures ExpiredPart(old(timers), expired) && Listed(now, expired, cbs) && Members() && Ledger()
      ensures old(NoLost()) && Rearms(old(timers), now) && !RolledOver(now, old(previous)) ==> NoLost()
      ensures old(OnSchedule(now)) ==> OnSchedule(now)
    {
      hide RolledOver, Members, NoLost, Deadline, OnSchedule, Listed, Rearms, Ledger, ExpiredPart;
      ListedFrom(now, expired, cbs);
      NextsMoved(now, expired);
      LedgerStands(expired);
    }

    /** The same, with the write lock held and at least one timer in the set. */
    method Expire(now: nat, probe: nat) returns (cbs: seq<Callback>, ghost expired: seq<Timer>)
      requires Known() && InOrder(timers) && Members() && previous < TWO64 && timers != []
      modifies this`timers, this`previous, all`next, all`cb
      ensures Known() && InOrder(timers) && previous == now && ExpiredPart(old(timers), expired)
      ensures if RolledOver(now, old(previous)) then expired == old(timers)
              else forall i :: 0 <= i < |old(timers)| ==> (i < |expired| <==> old(timers[i].next) <= now)
      ensures |cbs| == |expired| && forall i :: 0 <= i < |cbs| ==> Some(cbs[i]) == old(expired[i].cb)
      ensures forall i, j :: 0 <= i < j < |expired| ==> expired[i] != expired[j]
      ensures forall t :: t in expired ==> t in old(timers)
      ensures forall t :: t in timers <==> t in old(timers) && (t in expired ==> t.recurring)
      ensures forall t :: t in all ==> t.cb == if t in expired && !t.recurring then None else old(t.cb)
      ensures forall t :: t in all ==> t.next == if t in expired && t.recurring then Deadline(now, t.ms) else old(t.next)
    {
      hide InOrder, RolledOver, Known, Members, Deadline, ExpiredPart;
      MembersAre();
      var cut := CutExpired(now, probe);
      expired := cut;
      cbs := FireAll(cut, now);
    }

    /** What the new deadlines mean for the schedule and for the announcement of the front. */
    twostate lemma NextsMoved(now: nat, new expired: seq<Timer>)
      requires old(timers) != [] && unchanged(this`tickled, this`seen) && all == old(all)
      requires forall t :: t in all ==> t.ms == old(t.ms)
      requires old(previous) < TWO64 && forall t :: t in old(timers) ==> t in all
      requires forall i, j :: 0 <= i <= j < |old(timers)| ==> old(timers[i].next) <= old(timers[j].next)
      requires |expired| <= |old(timers)| && forall i :: 0 <= i < |expired| ==> expired[i] == old(timers)[i]
      requires !RolledOver(now, old(previous)) ==>
                 forall i :: 0 <= i < |old(timers)| ==> (i < |expired| <==> old(timers[i].next) <= now)
      requires forall t :: t in timers ==> t in old(timers)
      requires forall t :: t in all ==> t.next == if t in expired && t.recurring then Deadline(now, t.ms) else old(t.next)
      ensures old(NoLost()) && Rearms(old(timers), now) && !RolledOver(now, old(previous)) ==> NoLost()
      ensures old(OnSchedule(now)) ==> OnSchedule(now)
    {
      hide Deadline, RolledOver, NoLost;
      forall t | t in all ensures Deadline(now, t.ms) <= now + t.ms {
        NeverLate(t.ms, now);
      }
      if old(NoLost()) && Rearms(old(timers), now) && !RolledOver(now, old(previous)) {
        forall t | t in timers ensures old(t.next) <= t.next {
          if t in expired && t.recurring {
            Unwrapped(t.ms, now);
          }
        }
        StillAnnounced();
      }
    }

    twostate lemma Settled(now: nat, new cut: seq<Timer>)
      requires all == old(all) && forall t :: t in old(timers) ==> t in all
      requires forall t :: t in all ==> (old(t.cb).Some? <==> t in old(timers))
      requires forall t :: t in cut ==> t in old(timers)
      requires forall t :: t in timers <==> t in old(timers) && (t in cut ==> t.recurring)
      requires forall t :: t in all ==> t.cb == if t in cut && !t.recurring then None else old(t.cb)
      requires forall t :: t in all ==> t.next == if t in cut && t.recurring then Deadline(now, t.ms) else old(t.next)
      ensures Members() && Rearmed(now, cut)
    {
      hide Deadline;
    }

    /** The pieces of what one call hands out. */
    twostate lemma ListedFrom(now: nat, new expired: seq<Timer>, new cbs: seq<Callback>)
      requires old(previous) < TWO64 && all == old(all) && forall t :: t in old(timers) ==> t in all
      requires |expired| <= |old(timers)| && forall i :: 0 <= i < |expired| ==> expired[i] == old(timers)[i]
      requires if RolledOver(now, old(previous)) then expired == old(timers)
               else forall i :: 0 <= i < |old(timers)| ==> (i < |expired| <==> old(timers[i].next) <= now)
      requires forall i, j :: 0 <= i <= j < |old(timers)| ==> old(timers[i].next) <= old(timers[j].next)
      requires |cbs| == |expired| && forall i :: 0 <= i < |cbs| ==> Some(cbs[i]) == old(timers[i].cb)
      requires forall t :: t in all ==> (old(t.cb).Some? <==> t in old(timers))
      requires forall t :: t in timers <==> t in old(timers) && (t in expired ==> t.recurring)
      requires forall t :: t in all ==> t.cb == if t in expired && !t.recurring then None else old(t.cb)
      requires forall t :: t in all ==> t.next == if t in expired && t.recurring then Deadline(now, t.ms) else old(t.next)
      ensures ExpiredPart(old(timers), expired) && Listed(now, expired, cbs) && Members()
    {
      hide RolledOver, Deadline, Rearmed, Members;
      Settled(now, expired);
    }

    twostate lemma NothingListed(now: nat)
      requires old(previous) < TWO64 && old(timers) == [] && timers == [] && all == old(all)
      ensures ExpiredPart(old(timers), []) && Listed(now, [], [])
    {}

    lemma MembersAre()
      requires Known() && Members()
      ensures forall t :: t in timers ==> t in all && t.cb.Some?
      ensures forall t :: t in all ==> (t.cb.Some? <==> t in timers)
    {}

    lemma MembersLive()
      requires Known() && Members() && Ledger()
      ensures forall t :: t in timers ==> t in all && t !in dead
    {}

    twostate lemma LedgerStands(new expired: seq<Timer>)
      requires old(Ledger()) && unchanged(this`all, this`dead, this`fired)
      requires forall t :: t in all && t !in expired ==> t.cb == old(t.cb)
      requires forall t :: t in expired ==> t !in dead
      ensures Ledger()
    {}

    /** Keeps the ledger: these timers have been handed out, the one-shot ones for good. */
    ghost method Record(expired: seq<Timer>)
      requires Ledger() && forall t :: t in expired ==> t in all && t !in dead && (!t.recurring ==> t.cb == None)
      requires forall i, j :: 0 <= i < j < |expired| ==> expired[i] != expired[j]
      modifies this`fired, this`dead
      ensures Ledger() && fired == old(fired) + multiset(expired)
    {
      forall t | t in expired ensures multiset(expired)[t] == 1 {
        OnceEach(expired, t);
      }
      fired := fired + multiset(expired);
      dead := dead + set t | t in expired && !t.recurring;
    }

    /** Deadlines only moved back, so an announced front stays announced. */
    twostate lemma StillAnnounced()
      requires old(timers) != [] && old(NoLost()) && unchanged(this`tickled, this`seen)
      requires forall i :: 0 <= i < |old(timers)| ==> old(timers[0].next) <= old(timers[i].next)
      requires forall t :: t in timers ==> t in old(timers) && old(t.next) <= t.next
      ensures NoLost()
    {
      assert timers != [] ==> timers[0] in timers;
    }

    /** Re-arming a timer of `ts` at `now` does not wrap the 64-bit clock. */
    ghost predicate Rearms(ts: seq<Timer>, now: nat)
      reads ts`ms
    {
      forall t :: t in ts ==> now + t.ms < TWO64
    }

    /** Cuts off the part of the set that has expired. */
    method CutExpired(now: nat, probe: nat) returns (expired: seq<Timer>)
      requires Known() && InOrder(timers) && timers != [] && previous < TWO64
      modifies this`timers, this`previous
      ensures previous == now && ExpiredPart(old(timers), expired) && timers == old(timers)[|expired|..]
      ensures if RolledOver(now, old(previous)) then expired == old(timers)
              else forall i :: 0 <= i < |old(timers)| ==> (i < |expired| <==> old(timers)[i].next <= now)
      ensures Known() && InOrder(timers)
      ensures forall i, j :: 0 <= i < j < |expired| ==> expired[i] != expired[j]
      ensures forall t :: t in old(timers) <==> t in timers || t in expired
      ensures forall t :: t in expired ==> t !in timers
    {
      var end := EndOfExpired(now, probe);
      hide InOrder;
      SplitInOrder(timers, end);
      expired := timers[..end];
      timers := timers[end..];
    }

    method EndOfExpired(now: nat, probe: nat) returns (end: nat)
      requires InOrder(timers) && timers != [] && previous < TWO64
      modifies this`previous
      ensures previous == now && end <= |timers|
      ensures if RolledOver(now, old(previous)) then end == |timers|
              else forall i :: 0 <= i < |timers| ==> (i < end <==> timers[i].next <= now)
    {
      var rollover := DetectClockRollover(now);
      var ks := KeysOf(timers);
      ExpiredAreDue(ks, now, probe);
      if !rollover && timers[0].next > now {
        assert forall i :: 0 < i < |timers| ==> Less(timers[0].SortKey(), timers[i].SortKey());
        return 0;
      }
      return if rollover then |timers| else ExpiredEnd(ks, now, probe);
    }

    method FireOne(t: Timer, now: nat) returns (cb: Callback)
      requires Known() && InOrder(timers) && t in all && t !in timers && t.cb.Some?
      modifies this`timers, t`next, t`cb
      ensures Known() && InOrder(timers) && Some(cb) == old(t.cb)
      ensures forall u :: u in timers <==> u in old(timers) || (u == t && t.recurring)
      ensures t.cb == if t.recurring then old(t.cb) else None
      ensures t.next == if t.recurring then Deadline(now, t.ms) else old(t.next)
    {
      cb := t.cb.value;
      if t.recurring {
        t.next := Deadline(now, t.ms);
        Insert(t);
      } else {
        t.cb := None;
      }
    }

    /** Collects the callbacks; a recurring timer goes back in, a one-shot timer loses its callback. */
    method FireAll(expired: seq<Timer>, now: nat) returns (cbs: seq<Callback>)
      requires Known() && InOrder(timers)
      requires forall t :: t in expired ==> t in all && t !in timers && t.cb.Some?
      requires forall i, j :: 0 <= i < j < |expired| ==> expired[i] != expired[j]
      modifies this`timers, all`next, all`cb
      ensures Known() && InOrder(timers)
      ensures |cbs| == |expired| && forall i :: 0 <= i < |expired| ==> Some(cbs[i]) == old(expired[i].cb)
      ensures forall t :: t in timers <==> t in old(timers) || (t in expired && t.recurring)
      ensures forall t :: t in all ==> t.cb == if t in expired && !t.recurring then None else old(t.cb)
      ensures forall t :: t in all ==> t.next == if t in expired && t.recurring then Deadline(now, t.ms) else old(t.next)
    {
      hide InOrder;
      cbs := [];
      ghost var done: set<Timer> := {};
      var i := 0;
      while i < |expired|
        invariant 0 <= i <= |expired| && |cbs| == i
        invariant Known() && InOrder(timers)
        invariant forall j :: 0 <= j < |expired| ==> (expired[j] in done <==> j < i)
        invariant forall t :: t in done ==> t in expired
        invariant forall t :: t in timers <==> t in old(timers) || (t in done && t.recurring)
        invariant forall t :: t in all ==> t.cb == if t in done && !t.recurring then None else old(t.cb)
        invariant forall t :: t in all ==> t.next == if t in done && t.recurring then Deadline(now, t.ms) else old(t.next)
        invariant forall j :: 0 <= j < i ==> Some(cbs[j]) == old(expired[j].cb)
      {
        var cb := FireOne(expired[i], now);
        cbs := cbs + [cb];
        done := done + {expired[i]};
        i := i + 1;
      }
    }
  }

  lemma OnceEach(ts: seq<Timer>, t: Timer)
    requires t in ts && forall i, j :: 0 <= i < j < |ts| ==> ts[i] != ts[j]
    ensures multiset(ts)[t] == 1
  {
    var k :| 0 <= k < |ts| && ts[k] == t;
    assert ts == ts[..k] + [t] + ts[k + 1..];
    assert t !in ts[..k] && t !in ts[k + 1..];
  }

  predicate ExpiredPart(all: seq<Timer>, expired: seq<Timer>) {
    |expired| <= |all| && expired == all[..|expired|]
  }

  lemma InOrderNexts(ts: seq<Timer>)
    requires InOrder(ts)
    ensures forall i, j :: 0 <= i <= j < |ts| ==> ts[i].next <= ts[j].next
  {}

  lemma SplitInOrder(ts: seq<Timer>, k: nat)
    requires InOrder(ts) && k <= |ts|
    ensures InOrder(ts[..k]) && InOrder(ts[k..])
    ensures forall t :: t in ts <==> t in ts[..k] || t in ts[k..]
    ensures forall t :: t in ts[..k] ==> t !in ts[k..]
    ensures forall i, j :: 0 <= i < j < k ==> ts[..k][i] != ts[..k][j]
  {}

  /** What detectClockRollover finds. */
  predicate RolledOver(now: nat, previous: nat)
    requires previous < TWO64
  {
    now < previous && (previous < ROLLOVER_GAP || previous - now > ROLLOVER_GAP)
  }

  /** It is the intended "back by more than an hour" exactly when the clock showed at least an hour or did
      not go back; one millisecond back from the first second is taken for a rollover. */
  lemma RolloverIntended(now: nat, previous: nat)
    requires previous < TWO64
    ensures (RolledOver(now, previous) <==> now + ROLLOVER_GAP < previous) <==> (previous >= ROLLOVER_GAP || previous <= now)
    ensures RolledOver(999, 1000)
  {}

  /** The input on which refresh loses a front insertion: two timers, due at 500 and 1000; the second gets
      a shorter period without from_now, so that it is due later than its period from now; after
      getNextTimer reported 500, refreshing it moves it to 11 and nobody is told. */
  method RefreshLosesFront(first: Callback, second: Callback) returns (m: TimerManager)
    ensures m.Valid() && !m.NoLost() && !m.tickled && m.seen == Some(500) && m.timers != [] && m.timers[0].next == 11
  {
    m := new TimerManager(0);
    var a := m.AddTimer(500, first, false, 1, 0);
    var b := m.AddTimer(1000, second, false, 2, 0);
    var _ := b.Reset(10, false, 0);
    FrontIs(m, a, b);
    var _ := m.GetNextTimer(0);
    var _ := b.Refresh(1);
    FrontIs(m, b, a);
  }

  lemma FrontIs(m: TimerManager, front: Timer, other: Timer)
    requires m.Valid() && (forall t :: t in m.timers <==> t in {front, other}) && front.next < other.next
    ensures m.timers != [] && m.timers[0] == front
  {
    hide InOrder;
    InOrderNexts(m.timers);
    assert front in m.timers && m.timers[0] in m.timers;
  }

  // ----- the wait of the event loop -----

  const MAX_TIMEOUT := 3000

  /** A conversion to a 32-bit int. */
  function AsInt(x: nat): int {
    var y := x % 0x1_0000_0000;
    if y < 0x8000_0000 then y else y - 0x1_0000_0000
  }

  /** The timeout that idle hands to epoll_wait; the comparison is made after the conversion. */
  function EpollTimeout(next: nat): int {
    if next == FOREVER then MAX_TIMEOUT
    else if AsInt(next) > MAX_TIMEOUT then MAX_TIMEOUT
    else AsInt(next)
  }

  /** The clamp keeps the wait between zero and three seconds, and not beyond the next deadline, exactly
      when the converted delay is not negative; a negative one makes epoll_wait wait for ever. */
  lemma WaitIsBounded(next: nat)
    requires next < TWO64
    ensures 0 <= EpollTimeout(next) <= MAX_TIMEOUT && EpollTimeout(next) <= next
            <==> next == FOREVER || next % 0x1_0000_0000 < 0x8000_0000
    ensures EpollTimeout(0x8000_0000) == -0x8000_0000
    ensures next < 0x8000_0000 ==> EpollTimeout(next) == if next < 3000 then next else 3000
    ensures EpollTimeout(FOREVER) == 3000 && -0x8000_0000 <= EpollTimeout(next) <= 3000
    ensures next != FOREVER ==> EpollTimeout(next) == 3000 || (next - EpollTimeout(next)) % 0x1_0000_0000 == 0
  {}
}
