/** Counting pending wake-ups: a multiset over sequences and maps of optional tickets. */
module Pending {
  import opened Wrappers
  import opened Tasks

  type TicketBag = multiset<FiberId>

  function One(o: Option<FiberId>): TicketBag {
    if o.Some? then multiset{o.value} else multiset{}
  }

  function OfSeq(q: seq<Option<FiberId>>): TicketBag {
    if q == [] then multiset{} else One(q[0]) + OfSeq(q[1..])
  }

  ghost function AnyKey<K, V>(m: map<K, V>): (k: K)
    requires m != map[]
    ensures k in m
  {
    assert m.Keys != {};
    var k :| k in m.Keys;
    k
  }

  ghost function OfMap<K>(m: map<K, Option<FiberId>>): TicketBag
    decreases |m|
  {
    if m == map[] then multiset{}
    else
      var k := AnyKey(m);
      One(m[k]) + OfMap(m - {k})
  }

  lemma {:induction false} OfSeqConcat(a: seq<Option<FiberId>>, b: seq<Option<FiberId>>)
    ensures OfSeq(a + b) == OfSeq(a) + OfSeq(b)
  {
    if a == [] {
      assert a + b == b;
    } else {
      assert (a + b)[1..] == a[1..] + b;
      OfSeqConcat(a[1..], b);
    }
  }

  lemma OfSeqOne(o: Option<FiberId>)
    ensures OfSeq([o]) == One(o)
  {
    assert [o][1..] == [];
  }

  lemma OfSeqSplit(q: seq<Option<FiberId>>, k: nat)
    requires k < |q|
    ensures OfSeq(q) == OfSeq(q[..k]) + One(q[k]) + OfSeq(q[k + 1..])
  {
    assert q == q[..k] + q[k..];
    OfSeqConcat(q[..k], q[k..]);
  }

  lemma OfSeqRemove(q: seq<Option<FiberId>>, k: nat)
    requires k < |q|
    ensures OfSeq(q) == OfSeq(RemoveAt(q, k)) + One(q[k])
  {
    OfSeqSplit(q, k);
    OfSeqConcat(q[..k], q[k + 1..]);
  }

  lemma OfSeqUpdate(q: seq<Option<FiberId>>, k: nat, o: Option<FiberId>)
    requires k < |q|
    ensures OfSeq(q[k := o]) + One(q[k]) == OfSeq(q) + One(o)
  {
    OfSeqSplit(q, k);
    OfSeqSplit(q[k := o], k);
    assert q[k := o][..k] == q[..k] && q[k := o][k + 1..] == q[k + 1..];
  }

  /** The order in which a map is summed does not matter. */
  lemma {:induction false} OfMapPick<K>(m: map<K, Option<FiberId>>, k: K)
    requires k in m
    ensures OfMap(m) == One(m[k]) + OfMap(m - {k})
    decreases |m|
  {
    var j := AnyKey(m);
    if j != k {
      var mj, mk, mjk := m - {j}, m - {k}, m - {j, k};
      assert mj - {k} == mjk && mk - {j} == mjk;
      OfMapPick(mj, k);
      OfMapPick(mk, j);
      var a, b, c := One(m[j]), One(m[k]), OfMap(mjk);
      assert a + (b + c) == b + (a + c);
    }
  }

  lemma OfMapAdd<K>(m: map<K, Option<FiberId>>, k: K, o: Option<FiberId>)
    ensures OfMap(m[k := o]) + (if k in m then One(m[k]) else multiset{}) == OfMap(m) + One(o)
  {
    hide OfMap, One;
    var n, rest := m[k := o], OfMap(m - {k});
    OfMapPick(n, k);
    assert n - {k} == m - {k};
    if k in m {
      OfMapPick(m, k);
      Swap(One(o), rest, One(m[k]));
    } else {
      assert m - {k} == m;
      Swap(One(o), rest, multiset{});
    }
  }

  lemma OfMapNew<K>(m: map<K, Option<FiberId>>, k: K, o: Option<FiberId>)
    requires k !in m
    ensures OfMap(m[k := o]) == OfMap(m) + One(o)
  {
    hide OfMap, One;
    OfMapAdd(m, k, o);
    Swap(OfMap(m[k := o]), multiset{}, multiset{});
  }

  lemma Swap(a: TicketBag, b: TicketBag, c: TicketBag)
    ensures a + b + c == c + b + a && multiset{} + a == a
  {}

  lemma OfMapDrop<K>(m: map<K, Option<FiberId>>, k: K)
    ensures OfMap(m - {k}) + (if k in m then One(m[k]) else multiset{}) == OfMap(m)
  {
    if k in m {
      OfMapPick(m, k);
    } else {
      assert m - {k} == m;
    }
  }

  lemma {:induction false} OfSeqHas(q: seq<Option<FiberId>>, f: FiberId) returns (k: nat)
    requires f in OfSeq(q)
    ensures k < |q| && q[k] == Some(f)
  {
    if q[0] == Some(f) {
      k := 0;
    } else {
      k := OfSeqHas(q[1..], f);
      k := k + 1;
    }
  }

  lemma {:induction false} OfMapHas<K>(m: map<K, Option<FiberId>>, f: FiberId) returns (k: K)
    requires f in OfMap(m)
    ensures k in m && m[k] == Some(f)
    decreases |m|
  {
    var j := AnyKey(m);
    if m[j] == Some(f) {
      k := j;
    } else {
      k := OfMapHas(m - {j}, f);
    }
  }

  lemma OfSeqTwice(q: seq<Option<FiberId>>, i: nat, j: nat, f: FiberId)
    requires i < j < |q| && q[i] == q[j] == Some(f)
    ensures OfSeq(q)[f] >= 2
  {
    hide OfSeq;
    OfSeqSplit(q, i);
    OfSeqSplit(q[i + 1..], j - i - 1);
  }

  lemma OfMapTwice<K>(m: map<K, Option<FiberId>>, i: K, j: K, f: FiberId)
    requires i in m && j in m && i != j && m[i] == m[j] == Some(f)
    ensures OfMap(m)[f] >= 2
  {
    OfMapPick(m, i);
    OfMapPick(m - {i}, j);
  }
}
