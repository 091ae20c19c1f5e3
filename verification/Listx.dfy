/** Intrusive circular doubly linked lists (include/listx.h) in one shared memory of links.

    Memory maps the address of a `list_head` to the addresses in its `next` and `prev` words. A ring is
    a head and the members threaded through one link field of their structures. `Links.rings` is the
    ghost view: which rings there are and what each contains, as plain sequences. */
module Listx {
  import opened Sequences

  datatype Head = Ready | Wait | TcbFree | MsgFree | Child(t: nat) | Inbox(t: nat)

  /** The link field through which members are threaded: `t_next`, `t_sib` or `m_next`. */
  datatype Field = TNext | TSib | MNext

  datatype Node = H(head: Head) | L(field: Field, id: nat)

  type Memory = map<Node, Node>
  type Rings = map<Head, seq<nat>>

  function FieldOf(h: Head): (f: Field) {
    match h
    case Child(_) => TSib
    case MsgFree => MNext
    case Inbox(_) => MNext
    case _ => TNext
  }

  /** The node at index i of the ring: members from 0 on, the head before the first and after the last. */
  function At(h: Head, s: seq<nat>, i: int): (n: Node) {
    if 0 <= i < |s| then L(FieldOf(h), s[i]) else H(h)
  }

  /** The links lead around the ring in both directions. */
  ghost predicate IsRing(next: Memory, prev: Memory, h: Head, s: seq<nat>) {
    && (forall i :: -1 <= i < |s| ==> At(h, s, i) in next && next[At(h, s, i)] == At(h, s, i + 1))
    && (forall i :: 0 <= i <= |s| ==> At(h, s, i) in prev && prev[At(h, s, i)] == At(h, s, i - 1))
  }

  /** Node n is the head of ring h or one of its members. */
  predicate OnRing(rings: Rings, n: Node, h: Head) {
    h in rings && (n == H(h) || (n.L? && n.field == FieldOf(h) && n.id in rings[h]))
  }

  ghost predicate Loose(rings: Rings, n: Node) {
    forall h :: h in rings ==> !OnRing(rings, n, h)
  }

  /** No member twice, and no node on two rings. */
  ghost predicate Disjoint(rings: Rings) {
    && (forall h :: h in rings ==> NoDup(rings[h]))
    && (forall g, h, x :: g in rings && h in rings && FieldOf(g) == FieldOf(h) && x in rings[g] && x in rings[h] ==> g == h)
  }

  ghost predicate AllRings(next: Memory, prev: Memory, rings: Rings) {
    forall h :: h in rings ==> IsRing(next, prev, h, rings[h])
  }

  lemma AtDistinct(h: Head, s: seq<nat>, i: int, j: int)
    requires NoDup(s) && -1 <= i < |s| && -1 <= j < |s| && i != j
    ensures At(h, s, i) != At(h, s, j)
  {}

  /** Rings whose nodes keep their links stay rings. */
  lemma OthersKept(next: Memory, prev: Memory, next': Memory, prev': Memory, rings: Rings, h: Head, m: Node)
    requires Disjoint(rings) && AllRings(next, prev, rings) && h in rings && (OnRing(rings, m, h) || Loose(rings, m))
    requires forall n {:trigger n in next'} {:trigger next'[n]} {:trigger n in prev'} {:trigger prev'[n]} ::
      !OnRing(rings, n, h) && n != m ==>
        && (n in next ==> n in next' && next'[n] == next[n])
        && (n in prev ==> n in prev' && prev'[n] == prev[n])
    ensures forall g :: g in rings && g != h ==> IsRing(next', prev', g, rings[g])
  {
    forall g | g in rings && g != h ensures IsRing(next', prev', g, rings[g]) {
      var s := rings[g];
      forall i | -1 <= i <= |s| ensures !OnRing(rings, At(g, s, i), h) && At(g, s, i) != m {
        assert OnRing(rings, At(g, s, i), g);
        if 0 <= i < |s| { assert s[i] in s; }
      }
    }
  }

  /** Splicing x in before index p of the ring. */
  lemma InsertRing(next: Memory, prev: Memory, h: Head, s: seq<nat>, p: nat, x: nat)
    requires IsRing(next, prev, h, s) && NoDup(s) && p <= |s| && x !in s
    ensures var a, b, n := At(h, s, p - 1), At(h, s, p), L(FieldOf(h), x);
      IsRing(next[n := b][a := n], prev[b := n][n := a], h, s[..p] + [x] + s[p..])
  {
    var a, b, n := At(h, s, p - 1), At(h, s, p), L(FieldOf(h), x);
    var s' := s[..p] + [x] + s[p..];
    var next', prev' := next[n := b][a := n], prev[b := n][n := a];
    assert a != n && b != n;
    forall i | -1 <= i < |s'| ensures At(h, s', i) in next' && next'[At(h, s', i)] == At(h, s', i + 1) {
      InsertAt(h, s, p, x, i);
      InsertAt(h, s, p, x, i + 1);
      if i != p && i != p - 1 {
        var j := if i < p then i else i - 1;
        AtDistinct(h, s, j, p - 1);
        assert next[At(h, s, j)] == At(h, s, j + 1);
      }
    }
    forall i | 0 <= i <= |s'| ensures At(h, s', i) in prev' && prev'[At(h, s', i)] == At(h, s', i - 1) {
      InsertAt(h, s, p, x, i);
      InsertAt(h, s, p, x, i - 1);
      if i != p && i != p + 1 {
        var j := if i < p then i else i - 1;
        AtDistinct(h, s, if j == |s| then -1 else j, if p == |s| then -1 else p);
        assert prev[At(h, s, j)] == At(h, s, j - 1);
      }
    }
  }

  lemma InsertAt(h: Head, s: seq<nat>, p: nat, x: nat, i: int)
    requires p <= |s| && -1 <= i <= |s| + 1 && x !in s
    ensures At(h, s[..p] + [x] + s[p..], i) == if i < p then At(h, s, i) else if i == p then L(FieldOf(h), x) else At(h, s, i - 1)
    ensures At(h, s, i) != L(FieldOf(h), x) && At(h, s, i - 1) != L(FieldOf(h), x)
  {}

  /** Short-circuiting the member at index p. */
  lemma DeleteRing(next: Memory, prev: Memory, h: Head, s: seq<nat>, p: nat)
    requires IsRing(next, prev, h, s) && NoDup(s) && p < |s|
    ensures var a, b := At(h, s, p - 1), At(h, s, p + 1);
      IsRing(next[a := b], prev[b := a], h, s[..p] + s[p + 1..])
  {
    var a, b := At(h, s, p - 1), At(h, s, p + 1);
    var s' := s[..p] + s[p + 1..];
    var next', prev' := next[a := b], prev[b := a];
    forall i | -1 <= i < |s'| ensures At(h, s', i) in next' && next'[At(h, s', i)] == At(h, s', i + 1) {
      DeleteAt(h, s, p, i);
      DeleteAt(h, s, p, i + 1);
      if i != p - 1 {
        var j := if i < p then i else i + 1;
        AtDistinct(h, s, j, p - 1);
        assert next[At(h, s, j)] == At(h, s, j + 1);
      }
    }
    forall i | 0 <= i <= |s'| ensures At(h, s', i) in prev' && prev'[At(h, s', i)] == At(h, s', i - 1) {
      DeleteAt(h, s, p, i);
      DeleteAt(h, s, p, i - 1);
      if i != p {
        var j := if i < p then i else i + 1;
        AtDistinct(h, s, if j == |s| then -1 else j, if p + 1 == |s| then -1 else p + 1);
        assert prev[At(h, s, j)] == At(h, s, j - 1);
      }
    }
  }

  lemma DeleteAt(h: Head, s: seq<nat>, p: nat, i: int)
    requires p < |s| && -1 <= i < |s|
    ensures At(h, s[..p] + s[p + 1..], i) == if i < p then At(h, s, i) else At(h, s, i + 1)
  {}

  /** The `prev` words of all `t_sib` links are as before, except perhaps those of the threads in `but`. */
  ghost predicate SibsKept(prev: Memory, prev': Memory, but: seq<nat>) {
    forall t: nat {:trigger L(TSib, t)} :: t !in but ==>
      (L(TSib, t) in prev <==> L(TSib, t) in prev') && (L(TSib, t) in prev ==> prev'[L(TSib, t)] == prev[L(TSib, t)])
  }

  /** The `t_sib` links that an operation on ring h with member x may write. */
  function Sibs(h: Head, s: seq<nat>, x: nat): (r: seq<nat>) {
    if FieldOf(h) == TSib then s + [x] else []
  }

  lemma DisjointUpdate(rings: Rings, h: Head, s: seq<nat>)
    requires Disjoint(rings) && NoDup(s)
    requires forall x :: x in s ==> (h in rings && x in rings[h]) || Loose(rings, L(FieldOf(h), x))
    ensures Disjoint(rings[h := s])
  {
    var r := rings[h := s];
    forall g, f, x | g in r && f in r && FieldOf(g) == FieldOf(f) && x in r[g] && x in r[f] ensures g == f {
      if g == h && f != h {
        assert OnRing(rings, L(FieldOf(h), x), f);
      } else if f == h && g != h {
        assert OnRing(rings, L(FieldOf(h), x), g);
      }
    }
  }

  /** Taking an element out of a ring makes its link loose. */
  lemma RemovedIsLoose(rings: Rings, h: Head, x: nat)
    requires Disjoint(rings) && h in rings && x in rings[h]
    ensures Loose(rings[h := Remove(rings[h], x)], L(FieldOf(h), x))
  {
    RemoveIsMinus(rings[h], x);
  }

  class Links {
    var next: Memory
    var prev: Memory
    ghost var rings: Rings

    ghost predicate Valid()
      reads this
    {
      Disjoint(rings) && AllRings(next, prev, rings)
    }

    constructor ()
      ensures Valid() && rings == map[] && next == map[] && prev == map[]
    {
      next, prev, rings := map[], map[], map[];
    }

    /** INIT_LIST_HEAD of a list head: an empty ring, new or already empty. */
    method InitHead(h: Head)
      requires Valid() && (h in rings ==> rings[h] == [])
      modifies this
      ensures Valid() && rings == old(rings)[h := []]
      ensures SibsKept(old(prev), prev, [])
    {
      next := next[H(h) := H(h)];
      prev := prev[H(h) := H(h)];
      OthersUntouched(old(next), old(prev), rings, h);
      DisjointUpdate(rings, h, []);
      rings := rings[h := []];
    }

    /** INIT_LIST_HEAD of a link that is on no ring. */
    method InitLink(n: Node)
      requires Valid() && n.L? && Loose(rings, n)
      modifies this`next, this`prev
      ensures Valid() && n in prev && prev[n] == n && n in next && next[n] == n
      ensures SibsKept(old(prev), prev, if n.field == TSib then [n.id] else [])
    {
      next := next[n := n];
      prev := prev[n := n];
      LooseWrites(old(next), old(prev), next, prev, rings, {n});
    }

    /** __list_add */
    method AddBetween(n: Node, before: Node, after: Node)
      modifies this`next, this`prev
      ensures next == old(next)[n := after][before := n]
      ensures prev == old(prev)[after := n][n := before]
    {
      prev := prev[after := n];
      next := next[n := after];
      prev := prev[n := before];
      next := next[before := n];
    }

    /** list_add: at the head of ring h. */
    method Add(x: nat, h: Head)
      requires Valid() && h in rings && Loose(rings, L(FieldOf(h), x))
      modifies this
      ensures Valid() && rings == old(rings)[h := [x] + old(rings)[h]]
      ensures SibsKept(old(prev), prev, Sibs(h, old(rings)[h], x))
    {
      ghost var s := rings[h];
      assert next[At(h, s, -1)] == At(h, s, 0);
      assert !OnRing(rings, L(FieldOf(h), x), h);
      AddBetween(L(FieldOf(h), x), H(h), next[H(h)]);
      InsertRing(old(next), old(prev), h, s, 0, x);
      assert s[..0] + [x] + s[0..] == [x] + s;
      Spliced(old(next), old(prev), next, prev, rings, h, 0, x);
      rings := rings[h := [x] + s];
    }

    /** list_add_tail: at the tail of ring h. */
    method AddTail(x: nat, h: Head)
      requires Valid() && h in rings && Loose(rings, L(FieldOf(h), x))
      modifies this
      ensures Valid() && rings == old(rings)[h := old(rings)[h] + [x]]
      ensures SibsKept(old(prev), prev, Sibs(h, old(rings)[h], x))
    {
      ghost var s := rings[h];
      assert prev[At(h, s, |s|)] == At(h, s, |s| - 1);
      assert !OnRing(rings, L(FieldOf(h), x), h);
      AddBetween(L(FieldOf(h), x), prev[H(h)], H(h));
      InsertRing(old(next), old(prev), h, s, |s|, x);
      assert s[..|s|] + [x] + s[|s|..] == s + [x];
      Spliced(old(next), old(prev), next, prev, rings, h, |s|, x);
      rings := rings[h := s + [x]];
    }

    /** list_add_tail next to a link that is on no ring, whose predecessor is on none either. */
    method AddTailLoose(n: Node, at: Node)
      requires Valid() && at in prev
      requires Loose(rings, n) && Loose(rings, at) && Loose(rings, prev[at])
      modifies this`next, this`prev
      ensures Valid()
      ensures prev == old(prev)[at := n][n := old(prev[at])]
    {
      AddBetween(n, prev[at], at);
      LooseWrites(old(next), old(prev), next, prev, rings, {n, at, old(prev[at])});
    }

    /** list_del of a member of ring h, whose link is then on no ring. */
    method Del(ghost h: Head, n: Node)
      requires Valid() && h in rings && n.L? && OnRing(rings, n, h)
      modifies this
      ensures Valid() && rings == old(rings)[h := Remove(old(rings)[h], n.id)]
      ensures Loose(rings, n)
      ensures SibsKept(old(prev), prev, Sibs(h, old(rings)[h], n.id))
    {
      ghost var s := rings[h];
      ghost var p: int := IndexOf(s, n.id);
      assert At(h, s, p) == n && next[At(h, s, p)] == At(h, s, p + 1) && prev[At(h, s, p)] == At(h, s, p - 1);
      var before, after := prev[n], next[n];
      prev := prev[after := before];
      next := next[before := after];
      DeleteRing(old(next), old(prev), h, s, p);
      assert before == At(h, s, p - 1) && after == At(h, s, p + 1);
      Cut(old(next), old(prev), next, prev, rings, h, p);
      RemovedIsLoose(rings, h, n.id);
      rings := rings[h := Remove(s, n.id)];
    }

    /** container_of(head->next) and list_del of it. */
    method DelFirst(h: Head) returns (x: nat)
      requires Valid() && h in rings && rings[h] != []
      modifies this
      ensures Valid() && x == old(rings)[h][0] && rings == old(rings)[h := old(rings)[h][1..]]
      ensures Loose(rings, L(FieldOf(h), x))
      ensures SibsKept(old(prev), prev, Sibs(h, old(rings)[h], x))
    {
      ghost var s := rings[h];
      var first := Follow(H(h), h, 0);
      assert s[0] in s && IndexOf(s, s[0]) == 0;
      assert Remove(s, s[0]) == s[1..];
      Del(h, first);
      x := first.id;
    }

    /** list_empty */
    method IsEmpty(h: Head) returns (b: bool)
      requires Valid() && h in rings
      ensures b <==> rings[h] == []
    {
      ghost var s := rings[h];
      assert next[At(h, s, -1)] == At(h, s, 0);
      b := next[H(h)] == H(h);
    }

    /** The successor of the member at index i - 1, or of the head for i = 0. */
    method Follow(n: Node, ghost h: Head, ghost i: nat) returns (m: Node)
      requires Valid() && h in rings && i <= |rings[h]| && n == At(h, rings[h], i - 1)
      ensures m == At(h, rings[h], i) && (m.H? <==> i == |rings[h]|)
    {
      assert next[At(h, rings[h], i - 1)] == At(h, rings[h], i);
      m := next[n];
    }
  }

  /** A head that points to itself is an empty ring, and no other ring notices. */
  lemma OthersUntouched(next: Memory, prev: Memory, rings: Rings, h: Head)
    requires AllRings(next, prev, rings)
    ensures AllRings(next[H(h) := H(h)], prev[H(h) := H(h)], rings[h := []])
  {
    var next', prev' := next[H(h) := H(h)], prev[H(h) := H(h)];
    assert IsRing(next', prev', h, []);
    forall g | g in rings && g != h ensures IsRing(next', prev', g, rings[g]) {
      RingKept(next, prev, g, rings[g], h);
    }
  }

  lemma RingKept(next: Memory, prev: Memory, g: Head, s: seq<nat>, h: Head)
    requires IsRing(next, prev, g, s) && g != h
    ensures IsRing(next[H(h) := H(h)], prev[H(h) := H(h)], g, s)
  {}

  /** Writing to links that are on no ring leaves every ring alone. */
  lemma LooseWrites(next: Memory, prev: Memory, next': Memory, prev': Memory, rings: Rings, ns: set<Node>)
    requires AllRings(next, prev, rings) && forall n :: n in ns ==> Loose(rings, n)
    requires forall n :: n !in ns ==> (n in next ==> n in next' && next'[n] == next[n])
    requires forall n :: n !in ns ==> (n in prev ==> n in prev' && prev'[n] == prev[n])
    ensures AllRings(next', prev', rings)
  {
    forall g | g in rings ensures IsRing(next', prev', g, rings[g]) {
      forall i | -1 <= i <= |rings[g]| ensures At(g, rings[g], i) !in ns {
        assert OnRing(rings, At(g, rings[g], i), g);
      }
    }
  }

  lemma Spliced(next: Memory, prev: Memory, next': Memory, prev': Memory, rings: Rings, h: Head, p: nat, x: nat)
    requires Disjoint(rings) && AllRings(next, prev, rings) && h in rings && p <= |rings[h]|
    requires Loose(rings, L(FieldOf(h), x))
    requires var s, n := rings[h], L(FieldOf(h), x);
      && next' == next[n := At(h, s, p)][At(h, s, p - 1) := n]
      && prev' == prev[At(h, s, p) := n][n := At(h, s, p - 1)]
      && IsRing(next', prev', h, s[..p] + [x] + s[p..])
    ensures var s := rings[h][..p] + [x] + rings[h][p..];
      Disjoint(rings[h := s]) && AllRings(next', prev', rings[h := s])
  {
    var s, n := rings[h], L(FieldOf(h), x);
    assert OnRing(rings, At(h, s, p), h) && OnRing(rings, At(h, s, p - 1), h);
    OthersKept(next, prev, next', prev', rings, h, n);
    var s' := s[..p] + [x] + s[p..];
    assert !OnRing(rings, n, h);
    assert NoDup(s') by { NoDupConcat(s[..p], [x]); NoDupConcat(s[..p] + [x], s[p..]); }
    DisjointUpdate(rings, h, s');
  }

  lemma Cut(next: Memory, prev: Memory, next': Memory, prev': Memory, rings: Rings, h: Head, p: nat)
    requires Disjoint(rings) && AllRings(next, prev, rings) && h in rings && p < |rings[h]|
    requires var s := rings[h];
      && next' == next[At(h, s, p - 1) := At(h, s, p + 1)]
      && prev' == prev[At(h, s, p + 1) := At(h, s, p - 1)]
      && IsRing(next', prev', h, s[..p] + s[p + 1..])
    ensures var s := rings[h][..p] + rings[h][p + 1..];
      Disjoint(rings[h := s]) && AllRings(next', prev', rings[h := s])
  {
    var s := rings[h];
    assert OnRing(rings, At(h, s, p - 1), h) && OnRing(rings, At(h, s, p + 1), h);
    OthersKept(next, prev, next', prev', rings, h, H(h));
    assert NoDup(s[..p] + s[p + 1..]);
    DisjointUpdate(rings, h, s[..p] + s[p + 1..]);
  }
}
