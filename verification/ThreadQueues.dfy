/** The thread queues: every control block is in exactly one place, exactly once. */
module ThreadQueues {
  import opened Types
  import opened Sequences

  /** In how many places control block t is. */
  ghost function Places(q: Queues, t: Tid): (n: nat) {
    multiset(q.ready)[t] + multiset(q.wait)[t] + multiset(q.free)[t] + (if q.cur == Some(t) then 1 else 0)
  }

  ghost predicate Partition(q: Queues) {
    && (forall t: Tid :: Places(q, t) == 1)
    && |q.ready| + |q.wait| + |q.free| + (if q.cur.Some? then 1 else 0) == NT
  }

  /** What "exactly one place, once" means for one thread and for the lists. */
  lemma PartitionMeans(q: Queues)
    requires Partition(q)
    ensures NoDup(q.ready) && NoDup(q.wait) && NoDup(q.free)
    ensures forall t: Tid :: t in q.free <==> !Live(q, t)
    ensures forall t: Tid :: t in q.ready ==> t !in q.wait && q.cur != Some(t)
    ensures forall t: Tid :: t in q.wait ==> q.cur != Some(t)
  {
    forall t: Tid ensures multiset(q.ready)[t] <= 1 && multiset(q.wait)[t] <= 1 && multiset(q.free)[t] <= 1 {
      assert Places(q, t) == 1;
    }
    NoDupTid(q.ready);
    NoDupTid(q.wait);
    NoDupTid(q.free);
    forall t: Tid
      ensures t in q.free <==> !Live(q, t)
      ensures t in q.ready ==> t !in q.wait && q.cur != Some(t)
      ensures t in q.wait ==> q.cur != Some(t)
    {
      assert Places(q, t) == 1;
      assert t in q.ready <==> multiset(q.ready)[t] > 0;
      assert t in q.wait <==> multiset(q.wait)[t] > 0;
      assert t in q.free <==> multiset(q.free)[t] > 0;
    }
  }

  lemma NoDupTid(s: seq<Tid>)
    requires forall t: Tid :: multiset(s)[t] <= 1
    ensures NoDup(s)
  {
    forall i, j | 0 <= i < j < |s| ensures s[i] != s[j] {
      assert s == s[..j] + s[j..] && multiset(s)[s[j]] <= 1;
      assert s[..j][i] in multiset(s[..j]) && s[j..][0] in multiset(s[j..]);
    }
  }

  /** `insertThread(&ready_queue, outThread(&wait_queue, t))` */
  function Wake(q: Queues, t: Tid): (r: Queues) {
    q.(ready := q.ready + [t], wait := Remove(q.wait, t))
  }

  /** The current thread goes to the tail of wait_queue. */
  function Park(q: Queues): (r: Queues)
    requires q.cur.Some?
  {
    q.(wait := q.wait + [q.cur.value], cur := None)
  }

  /** The current thread goes to the tail of ready_queue. */
  function Preempt(q: Queues): (r: Queues)
    requires q.cur.Some?
  {
    q.(ready := q.ready + [q.cur.value], cur := None)
  }

  /** The head of ready_queue gets the CPU. */
  function Dispatch(q: Queues): (r: Queues)
    requires q.cur.None? && q.ready != []
  {
    q.(ready := q.ready[1..], cur := Some(q.ready[0]))
  }

  /** `allocTcb` followed by `insertThread(&ready_queue, ...)` */
  function Claim(q: Queues): (r: Queues)
    requires q.free != []
  {
    q.(ready := q.ready + [q.free[0]], free := q.free[1..])
  }

  /** The threads of ds leave every queue and the CPU for the free list. */
  function Reap(q: Queues, ds: seq<Tid>): (r: Queues) {
    Queues(Minus(q.ready, Elems(ds)), Minus(q.wait, Elems(ds)), q.free + ds,
           if q.cur.Some? && q.cur.value in ds then None else q.cur)
  }

  lemma WakeOk(q: Queues, t: Tid)
    requires Partition(q) && t in q.wait
    ensures Partition(Wake(q, t))
  {
    var i := IndexOf(q.wait, t);
    RemoveAtBag(q.wait, i);
    forall x: Tid ensures Places(Wake(q, t), x) == 1 {
      assert Places(q, x) == 1;
    }
  }

  lemma ParkOk(q: Queues)
    requires Partition(q) && q.cur.Some?
    ensures Partition(Park(q)) && Partition(Preempt(q))
  {
    forall x: Tid ensures Places(Park(q), x) == 1 && Places(Preempt(q), x) == 1 {
      assert Places(q, x) == 1;
    }
  }

  lemma DispatchOk(q: Queues)
    requires Partition(q) && q.cur.None? && q.ready != []
    ensures Partition(Dispatch(q))
  {
    assert q.ready == [q.ready[0]] + q.ready[1..];
    forall x: Tid ensures Places(Dispatch(q), x) == 1 {
      assert Places(q, x) == 1;
    }
  }

  lemma ClaimOk(q: Queues)
    requires Partition(q) && q.free != []
    ensures Partition(Claim(q))
  {
    assert q.free == [q.free[0]] + q.free[1..];
    forall x: Tid ensures Places(Claim(q), x) == 1 {
      assert Places(q, x) == 1;
    }
  }

  lemma ReapOk(q: Queues, ds: seq<Tid>)
    requires Partition(q) && NoDup(ds)
    requires forall t :: t in ds ==> Live(q, t)
    ensures Partition(Reap(q, ds))
  {
    PartitionMeans(q);
    forall x: Tid ensures Places(Reap(q, ds), x) == 1 {
      assert Places(q, x) == 1;
      MinusCount(q.ready, Elems(ds), x);
      MinusCount(q.wait, Elems(ds), x);
      CountNoDup(ds, x);
    }
    ReapSize(q, ds);
  }

  /** The number of places does not change: proved by taking the dead one by one. */
  lemma {:induction false} ReapSize(q: Queues, ds: seq<Tid>)
    requires Partition(q) && NoDup(ds)
    requires forall t :: t in ds ==> Live(q, t)
    ensures var r := Reap(q, ds); |r.ready| + |r.wait| + |r.free| + (if r.cur.Some? then 1 else 0) == NT
  {
    if ds == [] {
      MinusNone(q.ready, Elems(ds));
      MinusNone(q.wait, Elems(ds));
    } else {
      var n := |ds| - 1;
      var es, d := ds[..n], ds[n];
      assert ds == es + [d];
      forall t | t in es ensures Live(q, t) { assert t in ds; }
      ReapSize(q, es);
      assert Elems(ds) == Elems(es) + {d};
      assert d !in es;
      assert d in ds;
      PartitionMeans(q);
      MinusTwice(q.ready, Elems(es), {d});
      MinusTwice(q.wait, Elems(es), {d});
      MinusNoDup(q.ready, Elems(es));
      MinusNoDup(q.wait, Elems(es));
      RemoveIsMinus(Minus(q.ready, Elems(es)), d);
      RemoveIsMinus(Minus(q.wait, Elems(es)), d);
    }
  }

  lemma ReapTwice(q: Queues, a: seq<Tid>, b: seq<Tid>)
    ensures Reap(Reap(q, a), b) == Reap(q, a + b)
  {
    assert Elems(a + b) == Elems(a) + Elems(b);
    MinusTwice(q.ready, Elems(a), Elems(b));
    MinusTwice(q.wait, Elems(a), Elems(b));
    assert q.free + a + b == q.free + (a + b);
  }

  /** With one live thread, that thread is all there is. */
  lemma OnlyOne(q: Queues, t: Tid)
    requires Partition(q) && |q.free| == NT - 1 && Live(q, t)
    ensures forall x: Tid :: Live(q, x) ==> x == t
  {
    forall x: Tid | Live(q, x) ensures x == t {
      if |q.ready| == 1 { assert q.ready == [q.ready[0]]; }
      if |q.wait| == 1 { assert q.wait == [q.wait[0]]; }
    }
  }
}
