/** The process tree (phase1/src/tcb.c): parents, child lists, and what a cascading kill frees. */
module ProcessTree {
  import opened Types
  import opened Sequences

  /** Children are allocated after their parents. */
  ghost predicate Aged(tr: Tree) {
    && (forall t: Tid :: tr.birth[t] < tr.next)
    && (forall p: Tid, c: Tid :: c in tr.kids[p] ==> tr.birth[p] < tr.birth[c])
  }

  /** c occurs in p's child list exactly when its `t_parent` is p, and at most once;
      and by age the parent relation has no cycle. */
  ghost predicate TreeOk(tr: Tree) {
    && Aged(tr)
    && (forall p: Tid, c: Tid :: c in tr.kids[p] ==> tr.parent[c] == Some(p))
    && (forall c: Tid :: tr.parent[c].Some? ==> c in tr.kids[tr.parent[c].value])
    && (forall p: Tid :: NoDup(tr.kids[p]))
  }

  /** x is t or one of its descendants. */
  ghost predicate Under(tr: Tree, x: Tid, t: Tid)
    requires TreeOk(tr)
    decreases tr.birth[x]
  {
    x == t || (tr.parent[x].Some? && Under(tr, tr.parent[x].value, t))
  }

  /** The order in which `terminate` frees the subtree of t: every child's subtree, then t. */
  ghost function PostOrder(tr: Tree, t: Tid): (r: seq<Tid>)
    requires Aged(tr)
    decreases tr.next - tr.birth[t], 1, 0
  {
    PostForest(tr, t, tr.kids[t]) + [t]
  }

  ghost function PostForest(tr: Tree, p: Tid, cs: seq<Tid>): (r: seq<Tid>)
    requires Aged(tr)
    requires forall c :: c in cs ==> c in tr.kids[p]
    decreases tr.next - tr.birth[p], 0, |cs|
  {
    if cs == [] then []
    else PostForest(tr, p, cs[..|cs| - 1]) + PostOrder(tr, cs[|cs| - 1])
  }

  // ----- descendants -----

  lemma {:induction false} UnderAge(tr: Tree, x: Tid, t: Tid)
    requires TreeOk(tr) && Under(tr, x, t)
    ensures tr.birth[t] <= tr.birth[x]
    decreases tr.birth[x]
  {
    if x != t {
      UnderAge(tr, tr.parent[x].value, t);
    }
  }

  lemma {:induction false} UnderParent(tr: Tree, x: Tid, c: Tid)
    requires TreeOk(tr) && tr.parent[c].Some? && Under(tr, x, c)
    ensures Under(tr, x, tr.parent[c].value)
    decreases tr.birth[x]
  {
    if x == c {
      assert Under(tr, tr.parent[c].value, tr.parent[c].value);
    } else {
      UnderParent(tr, tr.parent[x].value, c);
    }
  }

  /** A proper descendant of t is under one of t's children. */
  lemma {:induction false} UnderChild(tr: Tree, x: Tid, t: Tid) returns (c: Tid)
    requires TreeOk(tr) && Under(tr, x, t) && x != t
    ensures c in tr.kids[t] && Under(tr, x, c)
    decreases tr.birth[x]
  {
    var p := tr.parent[x].value;
    if p == t {
      c := x;
    } else {
      c := UnderChild(tr, p, t);
    }
  }

  lemma {:induction false} UnderComparable(tr: Tree, x: Tid, a: Tid, b: Tid)
    requires TreeOk(tr) && Under(tr, x, a) && Under(tr, x, b)
    ensures Under(tr, a, b) || Under(tr, b, a)
    decreases tr.birth[x]
  {
    if x != a && x != b {
      UnderComparable(tr, tr.parent[x].value, a, b);
    }
  }

  /** Sibling subtrees are disjoint. */
  lemma SiblingsDisjoint(tr: Tree, t: Tid, a: Tid, b: Tid, x: Tid)
    requires TreeOk(tr) && a in tr.kids[t] && b in tr.kids[t]
    requires Under(tr, x, a) && Under(tr, x, b)
    ensures a == b
  {
    UnderComparable(tr, x, a, b);
    if a != b {
      var hi, lo := if Under(tr, a, b) then b else a, if Under(tr, a, b) then a else b;
      assert Under(tr, t, hi);
      UnderAge(tr, t, hi);
    }
  }

  // ----- the freeing order -----

  lemma {:induction false} PostOrderMembers(tr: Tree, t: Tid, x: Tid)
    requires TreeOk(tr)
    ensures x in PostOrder(tr, t) <==> Under(tr, x, t)
    decreases tr.next - tr.birth[t], 1, 0
  {
    PostForestMembers(tr, t, tr.kids[t], x);
    if Under(tr, x, t) && x != t {
      var c := UnderChild(tr, x, t);
    }
    if x in PostForest(tr, t, tr.kids[t]) {
      var i :| 0 <= i < |tr.kids[t]| && Under(tr, x, tr.kids[t][i]);
      assert tr.kids[t][i] in tr.kids[t];
      UnderParent(tr, x, tr.kids[t][i]);
    }
  }

  lemma {:induction false} PostForestMembers(tr: Tree, p: Tid, cs: seq<Tid>, x: Tid)
    requires TreeOk(tr)
    requires forall c :: c in cs ==> c in tr.kids[p]
    ensures x in PostForest(tr, p, cs) <==> exists i :: 0 <= i < |cs| && Under(tr, x, cs[i])
    decreases tr.next - tr.birth[p], 0, |cs|
  {
    if cs != [] {
      var n := |cs| - 1;
      PostForestMembers(tr, p, cs[..n], x);
      assert cs[n] in tr.kids[p];
      PostOrderMembers(tr, cs[n], x);
      if x in PostForest(tr, p, cs[..n]) {
        var i :| 0 <= i < n && Under(tr, x, cs[..n][i]);
        assert cs[i] == cs[..n][i];
      }
      if i :| 0 <= i < |cs| && Under(tr, x, cs[i]) {
        if i < n { assert cs[..n][i] == cs[i]; }
      }
    }
  }

  lemma LeafOrder(tr: Tree, t: Tid)
    requires Aged(tr) && tr.kids[t] == []
    ensures PostOrder(tr, t) == [t]
  {}

  lemma {:induction false} PostOrderNoDup(tr: Tree, t: Tid)
    requires TreeOk(tr)
    ensures NoDup(PostOrder(tr, t))
    decreases tr.next - tr.birth[t], 1, 0
  {
    PostForestNoDup(tr, t, tr.kids[t]);
    PostForestMembers(tr, t, tr.kids[t], t);
    if t in PostForest(tr, t, tr.kids[t]) {
      var i :| 0 <= i < |tr.kids[t]| && Under(tr, t, tr.kids[t][i]);
      assert tr.kids[t][i] in tr.kids[t];
      UnderAge(tr, t, tr.kids[t][i]);
    }
  }

  lemma {:induction false} PostForestNoDup(tr: Tree, p: Tid, cs: seq<Tid>)
    requires TreeOk(tr) && NoDup(cs)
    requires forall c :: c in cs ==> c in tr.kids[p]
    ensures NoDup(PostForest(tr, p, cs))
    decreases tr.next - tr.birth[p], 0, |cs|
  {
    if cs != [] {
      var n := |cs| - 1;
      PostForestNoDup(tr, p, cs[..n]);
      assert cs[n] in tr.kids[p];
      PostOrderNoDup(tr, cs[n]);
      EarlierSubtreesDisjoint(tr, p, cs, n);
      NoDupConcat(PostForest(tr, p, cs[..n]), PostOrder(tr, cs[n]));
    }
  }

  lemma EarlierSubtreesDisjoint(tr: Tree, p: Tid, cs: seq<Tid>, n: nat)
    requires TreeOk(tr) && NoDup(cs) && n < |cs|
    requires forall c :: c in cs ==> c in tr.kids[p]
    ensures forall x :: x in PostForest(tr, p, cs[..n]) ==> x !in PostOrder(tr, cs[n])
  {
    forall x | x in PostForest(tr, p, cs[..n]) ensures x !in PostOrder(tr, cs[n]) {
      PostForestMembers(tr, p, cs[..n], x);
      PostOrderMembers(tr, cs[n], x);
      var i :| 0 <= i < n && Under(tr, x, cs[..n][i]);
      assert cs[i] in cs && cs[n] in cs;
      if Under(tr, x, cs[n]) {
        SiblingsDisjoint(tr, p, cs[i], cs[n], x);
      }
    }
  }

  /** The freeing order of a subtree depends only on the child lists inside it. */
  lemma {:induction false} PostOrderFrame(a: Tree, b: Tree, t: Tid)
    requires Aged(a) && Aged(b) && a.birth == b.birth && a.next == b.next
    requires forall x :: x in PostOrder(a, t) ==> a.kids[x] == b.kids[x]
    ensures PostOrder(b, t) == PostOrder(a, t)
    decreases a.next - a.birth[t], 1, 0
  {
    assert t in PostOrder(a, t);
    PostForestFrame(a, b, t, a.kids[t]);
  }

  lemma {:induction false} PostForestFrame(a: Tree, b: Tree, p: Tid, cs: seq<Tid>)
    requires Aged(a) && Aged(b) && a.birth == b.birth && a.next == b.next
    requires forall c :: c in cs ==> c in a.kids[p] && c in b.kids[p]
    requires forall x :: x in PostForest(a, p, cs) ==> a.kids[x] == b.kids[x]
    ensures PostForest(b, p, cs) == PostForest(a, p, cs)
    decreases a.next - a.birth[p], 0, |cs|
  {
    if cs != [] {
      var n := |cs| - 1;
      assert cs[n] in a.kids[p];
      PostForestFrame(a, b, p, cs[..n]);
      PostOrderFrame(a, b, cs[n]);
    }
  }

  // ----- changes to the tree -----

  /** `outChild`, and `removeChild` when t is the first child. */
  function Detach(tr: Tree, t: Tid): (r: Tree) {
    if tr.parent[t].None? then tr
    else
      var p := tr.parent[t].value;
      tr.(parent := tr.parent[t := None], kids := tr.kids[p := Remove(tr.kids[p], t)])
  }

  /** The tree without the threads of d. */
  function Prune(tr: Tree, d: set<Tid>): (r: Tree) {
    tr.(parent := seq(NT, t requires 0 <= t < NT => if t in d then None else tr.parent[t]),
        kids := seq(NT, t requires 0 <= t < NT => if t in d then [] else Minus(tr.kids[t], d)))
  }

  /** `allocTcb` on the tree fields of n. */
  function Fresh(tr: Tree, n: Tid): (r: Tree) {
    tr.(parent := tr.parent[n := None], kids := tr.kids[n := []], kin := tr.kin[n := n],
        birth := tr.birth[n := tr.next], next := tr.next + 1)
  }

  /** `insertChild` */
  function Adopt(tr: Tree, p: Tid, n: Tid): (r: Tree) {
    tr.(parent := tr.parent[n := Some(p)], kids := tr.kids[p := tr.kids[p] + [n]])
  }

  /** `insertSibling` of n next to the parentless b, when no child list is damaged. */
  function Befriend(tr: Tree, b: Tid, n: Tid): (r: Tree) {
    tr.(kin := tr.kin[n := tr.kin[b]][b := n])
  }

  lemma DetachOk(tr: Tree, t: Tid)
    requires TreeOk(tr)
    ensures TreeOk(Detach(tr, t))
    ensures Detach(tr, t).parent[t] == None && Detach(tr, t).kids[t] == tr.kids[t]
    ensures forall x: Tid :: x != t ==> Detach(tr, t).parent[x] == tr.parent[x]
    ensures forall x: Tid :: Detach(tr, t).kids[x] == Minus(tr.kids[x], {t})
  {
    if tr.parent[t].Some? {
      var p := tr.parent[t].value;
      assert t in tr.kids[p] && tr.birth[p] < tr.birth[t];
      RemoveIsMinus(tr.kids[p], t);
      MinusNoDup(tr.kids[p], {t});
    }
    forall x: Tid ensures Detach(tr, t).kids[x] == Minus(tr.kids[x], {t}) {
      if tr.parent[t] != Some(x) { MinusNone(tr.kids[x], {t}); }
    }
  }

  lemma PruneOk(tr: Tree, d: set<Tid>)
    requires TreeOk(tr)
    requires forall p: Tid, c: Tid :: c in tr.kids[p] && p in d ==> c in d
    ensures TreeOk(Prune(tr, d))
  {
    forall p: Tid ensures NoDup(Prune(tr, d).kids[p]) {
      MinusNoDup(tr.kids[p], d);
    }
  }

  /** The subtree of t is closed under children. */
  lemma SubtreeClosed(tr: Tree, t: Tid)
    requires TreeOk(tr)
    ensures forall p: Tid, c: Tid :: c in tr.kids[p] && p in Elems(PostOrder(tr, t)) ==> c in Elems(PostOrder(tr, t))
  {
    forall p: Tid, c: Tid | c in tr.kids[p] && p in Elems(PostOrder(tr, t)) ensures c in Elems(PostOrder(tr, t)) {
      PostOrderMembers(tr, t, p);
      PostOrderMembers(tr, t, c);
    }
  }

  lemma PruneDetach(tr: Tree, t: Tid, d: set<Tid>)
    requires TreeOk(tr) && t in d
    ensures Prune(Detach(tr, t), d) == Prune(tr, d)
  {
    DetachOk(tr, t);
    forall x: Tid ensures Minus(Detach(tr, t).kids[x], d) == Minus(tr.kids[x], d) {
      MinusTwice(tr.kids[x], {t}, d);
      assert {t} + d == d;
    }
  }

  lemma PruneTwice(tr: Tree, d: set<Tid>, e: set<Tid>)
    ensures Prune(Prune(tr, d), e) == Prune(tr, d + e)
  {
    forall x: Tid ensures Prune(Prune(tr, d), e).kids[x] == Prune(tr, d + e).kids[x] {
      MinusTwice(tr.kids[x], d, e);
    }
  }

  lemma FreshOk(tr: Tree, n: Tid)
    requires TreeOk(tr) && tr.parent[n] == None && tr.kids[n] == []
    ensures TreeOk(Fresh(tr, n))
  {}

  lemma AdoptOk(tr: Tree, p: Tid, n: Tid)
    requires TreeOk(tr) && tr.parent[n] == None && tr.kids[n] == [] && tr.birth[p] < tr.birth[n]
    ensures TreeOk(Adopt(tr, p, n))
  {}
}
