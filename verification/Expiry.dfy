/** The expiry section of idle, on the timer set and the run queue, is the expiry step of the machine. */
module Expiry {
  import opened Wrappers
  import opened Tasks
  import opened Runtime
  import T = Timers
  import S = Scheduling
  import Safety

  /** The timer set as the machine sees it: its entries by identity. */
  ghost function View(m: T.TimerManager): (v: map<nat, TimerEntry>)
    requires m.Valid()
    reads m, m.all
    ensures forall t :: t in m.timers ==> t.address in v && v[t.address] == EntryOf(t)
    ensures forall id :: id in v ==> exists t :: t in m.timers && t.address == id
  {
    map t | t in m.timers :: t.address := EntryOf(t)
  }

  ghost function EntryOf(t: T.Timer): TimerEntry
    reads t
  {
    TimerEntry(t.next, t.ms, t.recurring, if t.cb.Some? then t.cb.value else User(0))
  }

  ghost function Ids(ts: seq<T.Timer>): (ids: seq<nat>)
    ensures |ids| == |ts| && forall i :: 0 <= i < |ts| ==> ids[i] == ts[i].address
  {
    seq(|ts|, i requires 0 <= i < |ts| => ts[i].address)
  }

  /** `ids` lists the machine's timers once each, earliest deadline first. */
  ghost predicate Lists(s: State, ids: seq<nat>) {
    && (forall i :: 0 <= i < |ids| ==> ids[i] in s.timers)
    && (forall id :: id in s.timers ==> id in ids)
    && (forall i, j :: 0 <= i < j < |ids| ==> ids[i] != ids[j])
    && (forall i, j :: 0 <= i < j < |ids| ==> s.timers[ids[i]].next <= s.timers[ids[j]].next)
  }

  lemma SetLists(m: T.TimerManager, s: State)
    requires m.Valid() && s.timers == View(m)
    ensures Lists(s, Ids(m.timers))
  {
    hide T.InOrder;
    T.InOrderNexts(m.timers);
    T.SplitInOrder(m.timers, |m.timers|);
    assert m.timers[..|m.timers|] == m.timers;
    var ids := Ids(m.timers);
    forall i, j | 0 <= i < j < |ids| ensures ids[i] != ids[j] {
      assert m.timers[i] in m.all && m.timers[j] in m.all && m.timers[i] != m.timers[j];
    }
    forall id | id in s.timers ensures id in ids {
      var t :| t in m.timers && t.address == id;
      var i :| 0 <= i < |m.timers| && m.timers[i] == t;
      assert ids[i] == id;
    }
  }

  /** The due part of such a list is an expiry order. */
  lemma DuePart(s: State, ids: seq<nat>, k: nat)
    requires Lists(s, ids) && k <= |ids|
    requires forall i :: 0 <= i < |ids| ==> (i < k <==> s.timers[ids[i]].next <= s.now)
    ensures ExpiryOrder(s, ids[..k])
  {
    var order := ids[..k];
    forall id | id in s.timers && Due(s, id) ensures id in order {
      var i :| 0 <= i < |ids| && ids[i] == id;
      assert order[i] == id;
    }
  }

  /** What the machine's expiry step makes of a timer. */
  lemma ExpireEntry(s: State, order: seq<nat>, id: nat)
    requires ExpiryOrder(s, order)
    ensures var ts := ExpireStep(s, order).timers;
            && (id in ts <==> id in s.timers && (id in order ==> s.timers[id].recurring))
            && (id in ts ==> ts[id] == if id in order then s.timers[id].(next := Deadline(s.now, s.timers[id].ms)) else s.timers[id])
  {}

  /** What the timer set holds after an expiry, told from what the machine's timers were before. */
  ghost predicate Rearmed(m: T.TimerManager, s: State, before: seq<T.Timer>, expired: seq<T.Timer>)
    reads m, m.all, before
  {
    && (forall t :: t in expired ==> t in before)
    && (forall t :: t in before ==> t in m.all && t.address in s.timers)
    && (forall t :: t in before ==> s.timers[t.address].ms == t.ms && s.timers[t.address].recurring == t.recurring)
    && (forall id :: id in s.timers ==> exists t :: t in before && t.address == id)
    && (forall t :: t in m.timers ==> t in before)
    && (forall t :: t in before ==> (t in m.timers <==> (t in expired ==> t.recurring)))
    && (forall t :: t in m.timers ==> t.cb == Some(s.timers[t.address].cb))
    && (forall t :: t in m.timers ==> t.next == if t in expired then Deadline(s.now, t.ms) else s.timers[t.address].next)
  }

  /** In the set a timer is identified by its address. */
  lemma SameTimer(m: T.TimerManager, t: T.Timer, u: T.Timer)
    requires m.Valid() && t in m.all && u in m.all && t.address == u.address
    ensures t == u
  {}

  lemma InIds(m: T.TimerManager, t: T.Timer, expired: seq<T.Timer>)
    requires m.Valid() && t in m.all && forall u :: u in expired ==> u in m.all
    ensures t.address in Ids(expired) <==> t in expired
  {
    if t.address in Ids(expired) {
      var i :| 0 <= i < |expired| && Ids(expired)[i] == t.address;
      SameTimer(m, t, expired[i]);
    }
    if t in expired {
      var i :| 0 <= i < |expired| && expired[i] == t;
      assert Ids(expired)[i] == t.address;
    }
  }

  lemma EntryMatches(m: T.TimerManager, s: State, before: seq<T.Timer>, expired: seq<T.Timer>, id: nat)
    requires m.Valid() && Rearmed(m, s, before, expired) && ExpiryOrder(s, Ids(expired))
    ensures id in View(m) <==> id in ExpireStep(s, Ids(expired)).timers
    ensures id in View(m) ==> View(m)[id] == ExpireStep(s, Ids(expired)).timers[id]
  {
    hide ExpireStep, ExpiryOrder;
    ExpireEntry(s, Ids(expired), id);
    if id in s.timers {
      var t :| t in before && t.address == id;
      InIds(m, t, expired);
      if u :| u in m.timers && u.address == id {
        SameTimer(m, t, u);
      }
    }
  }

  lemma SetMatches(m: T.TimerManager, s: State, before: seq<T.Timer>, expired: seq<T.Timer>)
    requires m.Valid() && Rearmed(m, s, before, expired) && ExpiryOrder(s, Ids(expired))
    ensures View(m) == ExpireStep(s, Ids(expired)).timers
  {
    hide ExpireStep, ExpiryOrder, View, Rearmed;
    Safety.OrderKnown(s, Ids(expired));
    forall id: nat ensures id in View(m) <==> id in ExpireStep(s, Ids(expired)).timers
                   ensures id in View(m) ==> View(m)[id] == ExpireStep(s, Ids(expired)).timers[id] {
      EntryMatches(m, s, before, expired, id);
    }
  }

  lemma {:induction false} TasksAre(cbs: seq<Option<Callback>>)
    requires forall i :: 0 <= i < |cbs| ==> cbs[i].Some?
    ensures |S.TasksOf(cbs)| == |cbs| && forall i :: 0 <= i < |cbs| ==> S.TasksOf(cbs)[i] == Task(CallWork(cbs[i].value), None)
    decreases |cbs|
  {
    if cbs != [] {
      TasksAre(cbs[..|cbs| - 1]);
    }
  }

  lemma QueueMatches(s: State, order: seq<nat>, cbs: seq<Option<Callback>>)
    requires |cbs| == |order| && forall i :: 0 <= i < |order| ==> order[i] in s.timers && cbs[i] == Some(s.timers[order[i]].cb)
    ensures ExpireStep(s, order).queue == s.queue + S.TasksOf(cbs)
  {
    TasksAre(cbs);
  }

  /** The values that a timer set had. */
  ghost predicate Had(s: State, before: seq<T.Timer>, nexts: map<T.Timer, nat>, was: map<T.Timer, Option<Callback>>)
    reads before`ms
  {
    && (forall t :: t in before ==> t in nexts && t in was && t.address in s.timers)
    && (forall t :: t in before ==> s.timers[t.address].next == nexts[t] && Some(s.timers[t.address].cb) == was[t])
    && (forall t :: t in before ==> s.timers[t.address].ms == t.ms && s.timers[t.address].recurring == t.recurring)
  }

  lemma SetHad(m: T.TimerManager, s: State, nexts: map<T.Timer, nat>, was: map<T.Timer, Option<Callback>>)
    requires m.Valid() && s.timers == View(m)
    requires forall t :: t in m.all ==> t in nexts && nexts[t] == t.next && t in was && was[t] == t.cb
    ensures Had(s, m.timers, nexts, was) && forall t :: t in m.timers ==> t in m.all
  {}

  /** What was handed out, by the values before. */
  ghost predicate Handed(s: State, before: seq<T.Timer>, expired: seq<T.Timer>, cbs: seq<Callback>,
                         nexts: map<T.Timer, nat>, was: map<T.Timer, Option<Callback>>)
  {
    && |expired| <= |before| && expired == before[..|expired|] && |cbs| == |expired|
    && (forall i :: 0 <= i < |before| ==> before[i] in nexts && before[i] in was)
    && (forall i :: 0 <= i < |before| ==> (i < |expired| <==> nexts[before[i]] <= s.now))
    && (forall i :: 0 <= i < |cbs| ==> Some(cbs[i]) == was[before[i]])
  }

  /** What was left, by the values before. */
  ghost predicate Kept(m: T.TimerManager, s: State, before: seq<T.Timer>, expired: seq<T.Timer>,
                       nexts: map<T.Timer, nat>, was: map<T.Timer, Option<Callback>>)
    reads m, m.all, before
  {
    && (forall t :: t in before ==> t in m.all && t in nexts && t in was)
    && (forall t :: t in before ==> (t in m.timers <==> (t in expired ==> t.recurring)))
    && (forall t :: t in m.timers ==> t in before && t in m.all && t.cb == was[t])
    && (forall t :: t in m.timers ==> t.next == if t in expired then Deadline(s.now, t.ms) else nexts[t])
  }

  lemma HandedInOrder(s: State, before: seq<T.Timer>, expired: seq<T.Timer>, cbs: seq<Callback>,
                      nexts: map<T.Timer, nat>, was: map<T.Timer, Option<Callback>>)
    requires Had(s, before, nexts, was) && Lists(s, Ids(before)) && Handed(s, before, expired, cbs, nexts, was)
    ensures ExpiryOrder(s, Ids(expired))
    ensures forall i :: 0 <= i < |cbs| ==> Ids(expired)[i] in s.timers && cbs[i] == s.timers[Ids(expired)[i]].cb
  {
    hide ExpiryOrder, Lists;
    assert forall i :: 0 <= i < |before| ==> before[i] in before;
    InTable(s, Ids(before));
    DuePart(s, Ids(before), |expired|);
    assert Ids(expired) == Ids(before)[..|expired|];
  }

  lemma InTable(s: State, ids: seq<nat>)
    requires Lists(s, ids)
    ensures forall i :: 0 <= i < |ids| ==> ids[i] in s.timers
    ensures forall id :: id in s.timers ==> id in ids
  {}

  lemma KeptRearmed(m: T.TimerManager, s: State, before: seq<T.Timer>, expired: seq<T.Timer>,
                    nexts: map<T.Timer, nat>, was: map<T.Timer, Option<Callback>>)
    requires Had(s, before, nexts, was) && Lists(s, Ids(before)) && Kept(m, s, before, expired, nexts, was)
    requires forall t :: t in expired ==> t in before
    ensures Rearmed(m, s, before, expired)
  {
    hide Lists, Deadline;
    InTable(s, Ids(before));
    forall id | id in s.timers ensures exists t :: t in before && t.address == id {
      var i :| 0 <= i < |before| && Ids(before)[i] == id;
      assert before[i] in before;
    }
  }

  /** listExpiredCb, told by the values before. */
  method ListExpired(m: T.TimerManager, now: nat, probe: nat, ghost s: State, ghost nexts: map<T.Timer, nat>,
                     ghost was: map<T.Timer, Option<Callback>>)
    returns (cbs: seq<Callback>, ghost expired: seq<T.Timer>)
    requires m.Valid() && m.previous < TWO64 && m.previous <= now && s.now == now
    requires forall t :: t in m.all ==> t in nexts && nexts[t] == t.next && t in was && was[t] == t.cb
    modifies m, m.all`next, m.all`cb
    ensures m.Valid() && Handed(s, old(m.timers), expired, cbs, nexts, was) && Kept(m, s, old(m.timers), expired, nexts, was)
    ensures fresh(m.all - old(m.all)) && forall t :: t in expired ==> t in old(m.timers)
  {
    hide T.TimerManager.Valid, T.TimerManager.NoLost, T.TimerManager.OnSchedule, T.TimerManager.Rearms, Deadline;
    StillIn(m);
    cbs, expired := m.ListExpired(now, probe);
    StillIn(m);
  }

  lemma StillIn(m: T.TimerManager)
    requires m.Valid()
    ensures forall t :: t in m.timers ==> t in m.all
  {}

  /** listExpiredCb and the scheduling of what it handed out, while the clock does not go back: the
      timer set and the queue afterwards are those of the machine's step. */
  method IdleExpire(m: T.TimerManager, q: S.Scheduler, now: nat, probe: nat, ghost s: State) returns (ghost order: seq<nat>)
    requires m.Valid() && m.previous < TWO64 && m.previous <= now
    requires s.timers == View(m) && s.now == now && s.queue == q.fibers
    modifies m, m.all`next, m.all`cb, q
    ensures m.Valid() && ExpiryOrder(s, order)
    ensures View(m) == ExpireStep(s, order).timers && q.fibers == ExpireStep(s, order).queue
  {
    hide View, Lists, Had, Handed, Kept, ExpireStep, ExpiryOrder, Rearmed, T.TimerManager.Valid;
    ghost var before := m.timers;
    ghost var nexts, was := map t | t in m.all :: t.next, map t | t in m.all :: t.cb;
    SetLists(m, s);
    SetHad(m, s, nexts, was);
    var cbs, expired := ListExpired(m, now, probe, s, nexts, was);
    order := Ids(expired);
    HandedInOrder(s, before, expired, cbs, nexts, was);
    KeptRearmed(m, s, before, expired, nexts, was);
    Safety.OrderKnown(s, order);
    SetMatches(m, s, before, expired);
    SameLength(s, before, expired, cbs, nexts, was);
    Handover(q, cbs, s, order);
  }

  /** The scheduling of the callbacks that were handed out. */
  method Handover(q: S.Scheduler, cbs: seq<Callback>, ghost s: State, ghost order: seq<nat>)
    requires s.queue == q.fibers && |cbs| == |order|
    requires forall i :: 0 <= i < |order| ==> order[i] in s.timers && cbs[i] == s.timers[order[i]].cb
    modifies q
    ensures q.fibers == ExpireStep(s, order).queue
  {
    hide ExpireStep;
    var a := new Option<Callback>[|cbs|](i requires 0 <= i < |cbs| => Some(cbs[i]));
    QueueMatches(s, order, a[..]);
    if |cbs| != 0 {
      var _ := q.ScheduleBatch(a);
    }
  }

  lemma SameLength(s: State, before: seq<T.Timer>, expired: seq<T.Timer>, cbs: seq<Callback>,
                   nexts: map<T.Timer, nat>, was: map<T.Timer, Option<Callback>>)
    requires Handed(s, before, expired, cbs, nexts, was)
    ensures |cbs| == |expired|
  {}
}
