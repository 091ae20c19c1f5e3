/** The recursion of `terminate` against its closed form: killing a subtree child by child is killing
    it at once. */
module Cascade {
  import opened Types
  import opened Sequences
  import opened ProcessTree
  import opened ThreadQueues
  import opened Mailboxes
  import opened KernelSpec
  import opened Invariants

  lemma SubTwice(a: nat, b: nat, c: nat)
    ensures Sub32(Sub32(a, b), c) == Sub32(a, b + c)
  {
    var q := (a - b) / U32;
    assert Sub32(a, b) == a - b - q * U32;
    assert (a - b - q * U32 - c) % U32 == (a - b - c) % U32;
  }

  lemma SubZero(a: nat)
    requires a < U32
    ensures Sub32(a, 0) == a
  {}

  lemma {:induction false} DismissConcat(ms: seq<Addr>, a: seq<Tid>, b: seq<Tid>)
    ensures Dismiss(Dismiss(ms, a), b) == Dismiss(ms, a + b)
  {
    if b == [] {
      assert a + b == a;
    } else {
      DismissConcat(ms, a, b[..|b| - 1]);
      assert (a + b)[..|a + b| - 1] == a + b[..|b| - 1];
    }
  }

  lemma KillTwiceThreads(k: K, a: seq<Tid>, b: seq<Tid>)
    ensures Kill(Kill(k, a), b).threadCount == Kill(k, a + b).threadCount
  {
    CountTwice(k.threadCount, a, b);
  }

  lemma CountTwice(c: nat, a: seq<Tid>, b: seq<Tid>)
    ensures Sub32(Sub32(c, |a|), |b|) == Sub32(c, |a + b|)
  {
    SubTwice(c, |a|, |b|);
  }

  /** Two disjoint kills are one. */
  lemma KillTwice(k: K, a: seq<Tid>, b: seq<Tid>)
    requires forall t :: t in a ==> t !in b
    ensures Kill(Kill(k, a), b) == Kill(k, a + b)
  {
    var x, y := Kill(Kill(k, a), b), Kill(k, a + b);
    assert x.q == y.q by { ReapTwice(k.q, a, b); }
    assert x.tree == y.tree by {
      assert Elems(a + b) == Elems(a) + Elems(b);
      PruneTwice(k.tree, Elems(a), Elems(b));
    }
    assert x.mail == y.mail by { DiscardTwice(k.mail, a, b); }
    assert x.traps == y.traps by { DismissConcat(k.traps.managers, a, b); }
    KillTwiceThreads(k, a, b);
  }

  /** Unlinking a thread before it is killed makes no difference. */
  lemma KillDetach(k: K, t: Tid, ds: seq<Tid>)
    requires TreeOk(k.tree) && t in ds
    ensures Kill(k.(tree := Detach(k.tree, t)), ds) == Kill(k, ds)
  {
    PruneDetach(k.tree, t, Elems(ds));
  }

  /** Where the loop of `terminate` stands: the first i children of t and their subtrees are dead. */
  ghost predicate HalfWay(k0: K, t: Tid, i: nat, k: K) {
    && TreeOk(k0.tree) && i <= |k0.tree.kids[t]|
    && k == Kill(k0, PostForest(k0.tree, t, k0.tree.kids[t][..i]))
  }

  lemma HalfWayKids(k0: K, t: Tid, i: nat, k: K)
    requires HalfWay(k0, t, i, k)
    ensures i <= |k0.tree.kids[t]| && k.tree.kids[t] == k0.tree.kids[t][i..]
    ensures TreeOk(k0.tree) && k.tree.birth == k0.tree.birth && k.tree.next == k0.tree.next
    ensures k0.tree.parent[t] == None ==> k.tree.parent[t] == None
  {
    var cs := k0.tree.kids[t];
    var done := PostForest(k0.tree, t, cs[..i]);
    assert cs == cs[..i] + cs[i..];
    MinusConcat(cs[..i], cs[i..], Elems(done));
    forall c | c in cs[..i] ensures c in Elems(done) {
      PostForestMembers(k0.tree, t, cs[..i], c);
      var j :| 0 <= j < i && cs[..i][j] == c;
      assert Under(k0.tree, c, cs[..i][j]);
    }
    MinusAll(cs[..i], Elems(done));
    forall c | c in cs[i..] ensures c !in Elems(done) {
      LaterNotDone(k0.tree, t, i, c);
    }
    MinusNone(cs[i..], Elems(done));
    PostForestMembers(k0.tree, t, cs[..i], t);
    if t in done {
      var j :| 0 <= j < i && Under(k0.tree, t, cs[..i][j]);
      assert cs[..i][j] in cs;
      UnderAge(k0.tree, t, cs[..i][j]);
    }
  }

  lemma LaterNotDone(tr: Tree, t: Tid, i: nat, c: Tid)
    requires TreeOk(tr) && i <= |tr.kids[t]| && c in tr.kids[t][i..]
    ensures c !in PostForest(tr, t, tr.kids[t][..i])
  {
    var cs := tr.kids[t];
    var j :| i <= j < |cs| && cs[j] == c;
    PostForestMembers(tr, t, cs[..i], c);
    if c in PostForest(tr, t, cs[..i]) {
      var l :| 0 <= l < i && Under(tr, c, cs[..i][l]);
      assert cs[l] in cs;
      SiblingsDisjoint(tr, t, cs[l], c, c);
    }
  }

  /** The child lists in the next child's subtree are as they were. */
  lemma KidsKept(tr: Tree, t: Tid, i: nat, d: set<Tid>, x: Tid)
    requires TreeOk(tr) && i < |tr.kids[t]| && d == Elems(PostForest(tr, t, tr.kids[t][..i]))
    requires x in PostOrder(tr, tr.kids[t][i])
    ensures x !in d && Minus(tr.kids[x], d) == tr.kids[x] && Minus(tr.kids[x], {tr.kids[t][i]}) == tr.kids[x]
  {
    var c := tr.kids[t][i];
    assert c in tr.kids[t];
    EarlierSubtreesDisjoint(tr, t, tr.kids[t], i);
    PostOrderMembers(tr, c, x);
    forall y | y in tr.kids[x] ensures y !in d && y != c {
      PostOrderMembers(tr, c, y);
      UnderAge(tr, x, c);
    }
    MinusNone(tr.kids[x], d);
    MinusNone(tr.kids[x], {c});
  }

  /** The next child's subtree is still as it was. */
  lemma HalfWaySubtree(k0: K, t: Tid, i: nat, k: K)
    requires HalfWay(k0, t, i, k) && TreeOk(k.tree) && i < |k0.tree.kids[t]|
    ensures var c := k0.tree.kids[t][i];
      Aged(Detach(k.tree, c)) && PostOrder(Detach(k.tree, c), c) == PostOrder(k0.tree, c)
  {
    var c := k0.tree.kids[t][i];
    var d := Elems(PostForest(k0.tree, t, k0.tree.kids[t][..i]));
    DetachOk(k.tree, c);
    forall x | x in PostOrder(k0.tree, c) ensures Detach(k.tree, c).kids[x] == k0.tree.kids[x] {
      KidsKept(k0.tree, t, i, d, x);
      assert k.tree.kids[x] == k0.tree.kids[x];
    }
    PostOrderFrame(k0.tree, Detach(k.tree, c), c);
  }

  /** One more child: unlink it, kill its subtree. */
  lemma HalfWayStep(k0: K, t: Tid, i: nat, k: K)
    requires HalfWay(k0, t, i, k) && TreeOk(k.tree) && i < |k0.tree.kids[t]|
    ensures var c := k0.tree.kids[t][i]; var d := k.(tree := Detach(k.tree, c));
      Aged(d.tree) && HalfWay(k0, t, i + 1, Kill(d, PostOrder(d.tree, c)))
  {
    var cs := k0.tree.kids[t];
    var c := cs[i];
    HalfWaySubtree(k0, t, i, k);
    var done, ds := PostForest(k0.tree, t, cs[..i]), PostOrder(k0.tree, c);
    assert Kill(k.(tree := Detach(k.tree, c)), ds) == Kill(k, ds) by { KillDetach(k, c, ds); }
    assert Kill(k, ds) == Kill(k0, done + ds) by {
      EarlierSubtreesDisjoint(k0.tree, t, cs, i);
      KillTwice(k0, done, ds);
    }
    ForestSnoc(k0.tree, t, i);
  }

  lemma ForestSnoc(tr: Tree, t: Tid, i: nat)
    requires Aged(tr) && i < |tr.kids[t]|
    ensures PostForest(tr, t, tr.kids[t][..i + 1]) == PostForest(tr, t, tr.kids[t][..i]) + PostOrder(tr, tr.kids[t][i])
  {
    assert tr.kids[t][..i + 1][..i] == tr.kids[t][..i];
  }

  lemma PruneNobody(tr: Tree)
    ensures Prune(tr, {}) == tr
  {
    forall x: Tid ensures Minus(tr.kids[x], {}) == tr.kids[x] { MinusNone(tr.kids[x], {}); }
  }

  lemma ReapNobody(q: Queues)
    ensures Reap(q, []) == q
  {
    assert Elems<Tid>([]) == {};
    MinusNone(q.ready, {});
    MinusNone(q.wait, {});
  }

  lemma DiscardNobody(m: Mail)
    ensures Discard(m, []) == m
  {
    assert Elems<Tid>([]) == {};
    assert Emptied(m.inbox, {}) == m.inbox;
  }

  /** Killing nobody changes nothing, if the counters are in range. */
  lemma KillNobody(k: K)
    requires k.threadCount < U32
    ensures Kill(k, []) == k
  {
    ReapNobody(k.q);
    PruneNobody(k.tree);
    DiscardNobody(k.mail);
    assert Elems<Tid>([]) == {};
    SubZero(k.threadCount);
  }

  lemma HalfWayStart(k: K, t: Tid)
    requires TreeOk(k.tree) && k.threadCount < U32
    ensures HalfWay(k, t, 0, k)
  {
    assert k.tree.kids[t][..0] == [];
    KillNobody(k);
  }

  /** After the loop, the thread itself is the last to go. */
  lemma HalfWayEnd(k0: K, t: Tid, k: K)
    requires HalfWay(k0, t, |k0.tree.kids[t]|, k)
    ensures Kill(k, [t]) == Kill(k0, PostOrder(k0.tree, t))
    ensures Live(k.q, t) <==> Live(k0.q, t)
    ensures k.status == k0.status
  {
    var cs := k0.tree.kids[t];
    assert cs[..|cs|] == cs;
    var done := PostForest(k0.tree, t, cs);
    assert PostOrder(k0.tree, t) == done + [t];
    PostForestMembers(k0.tree, t, cs, t);
    if t in done {
      var j :| 0 <= j < |cs| && Under(k0.tree, t, cs[j]);
      assert cs[j] in cs;
      UnderAge(k0.tree, t, cs[j]);
    }
    KillTwice(k0, done, [t]);
  }
}
