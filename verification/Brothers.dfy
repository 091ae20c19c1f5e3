/** CREATEBROTHER of a thread without a parent (phase2/src/ssi.c with `insertSibling` of phase1/src/tcb.c).
    The brother is linked in front of a `t_sib` that is on no list, so whatever that link's `prev` word
    still points to is written as well. `outChild` never unlinks such brothers, so the word can be stale:
    these lemmas say exactly when the write destroys a child list. */
module Brothers {
  import opened Types
  import opened ProcessTree
  import opened ThreadQueues
  import opened KernelSpec
  import opened Invariants
  import opened Listx
  import opened Store
  import opened Ties

  /** The `next` words after `list_add_tail(n, at)`. */
  function NextAfter(next: Memory, prev: Memory, n: Node, at: Node): (r: Memory)
    requires at in prev
  {
    next[n := at][prev[at] := n]
  }

  /** The `prev` words after `list_add_tail(n, at)`. */
  function PrevAfter(prev: Memory, n: Node, at: Node): (r: Memory)
    requires at in prev
  {
    prev[at := n][n := prev[at]]
  }

  /** Adding n in front of a link that is on no ring leaves all rings intact if and only if the link that
      it used to follow is on no ring either. */
  lemma AddTailKeepsRings(next: Memory, prev: Memory, rings: Rings, n: Node, at: Node)
    requires AllRings(next, prev, rings) && at in prev && Loose(rings, n) && Loose(rings, at)
    ensures AllRings(NextAfter(next, prev, n, at), PrevAfter(prev, n, at), rings) <==> Loose(rings, prev[at])
  {
    var next', prev' := NextAfter(next, prev, n, at), PrevAfter(prev, n, at);
    if Loose(rings, prev[at]) {
      LooseWrites(next, prev, next', prev', rings, {n, at, prev[at]});
    } else {
      var h :| h in rings && OnRing(rings, prev[at], h);
      if IsRing(next', prev', h, rings[h]) {
        LeadsAstray(next', prev', rings, h, prev[at], n);
      }
    }
  }

  /** On a ring, the word after a node does not lead to a link that is on no ring. */
  lemma LeadsAstray(next: Memory, prev: Memory, rings: Rings, h: Head, m: Node, n: Node)
    requires h in rings && IsRing(next, prev, h, rings[h]) && OnRing(rings, m, h) && Loose(rings, n)
    ensures m in next && next[m] != n
  {
    var s := rings[h];
    var i: int := -1;
    if m != H(h) {
      i :| 0 <= i < |s| && s[i] == m.id;
    }
    assert At(h, s, i) == m && next[At(h, s, i)] == At(h, s, i + 1);
    assert OnRing(rings, At(h, s, i + 1), h);
  }

  /** In a laid-out kernel: the new brother n of the parentless x destroys no list if and only if the thread
      whose `t_sib` precedes x's has no parent. */
  lemma BrotherKeepsLists(k: K, im: Image, next: Memory, x: Tid, n: Tid)
    requires Laid(k, im, {}) && AllRings(next, im.prev, im.rings)
    requires Live(k.q, x) && k.tree.parent[x].None? && n in k.q.free
    ensures L(TSib, x) in im.prev
    ensures AllRings(NextAfter(next, im.prev, L(TSib, n), L(TSib, x)), PrevAfter(im.prev, L(TSib, n), L(TSib, x)), im.rings)
      <==> BrotherAllowed(k, x)
  {
    var y := k.tree.kin[x];
    FreeUnused(k, im.rings, n);
    LooseSib(k, im.rings, x);
    if k.tree.parent[y].None? {
      LooseSib(k, im.rings, y);
    } else {
      ChildListed(k, im, y);
    }
    AddTailKeepsRings(next, im.prev, im.rings, L(TSib, n), L(TSib, x));
  }

  lemma ChildListed(k: K, im: Image, y: Tid)
    requires Laid(k, im, {}) && k.tree.parent[y].Some?
    ensures !Loose(im.rings, L(TSib, y))
  {
    var p := k.tree.parent[y].value;
    assert y in k.tree.kids[p];
    PartitionMeans(k.q);
    assert Live(k.q, p);
    assert OnRing(im.rings, L(TSib, y), Child(p));
  }

  /** How the guard comes to fail: with one control block left, the parentless x gets a brother, the brother
      is terminated, and the block is used again for a son of p. The next brother of x would be linked
      into p's child list. Nothing is wrong with the state itself. */
  lemma StaleBrother(k: K, x: Tid, p: Tid)
    requires Structure(k) && |k.q.free| == 1 && Live(k.q, x) && Live(k.q, p) && k.tree.parent[x].None?
    ensures var n := k.q.free[0]; var born := BrotherBorn(k, x);
      && TreeOk(born.tree)
      && var dead := Terminate(born, n);
         && dead.q.free == [n]
         && var reused := SonBorn(dead, p);
            reused.tree.parent[x].None? && reused.tree.parent[reused.tree.kin[x]] == Some(p) && !BrotherAllowed(reused, x)
  {
    hide BrotherBorn, SonBorn, Terminate, Structure;
    var n := k.q.free[0];
    var born := BrotherBorn(k, x);
    BrotherFacts(k, x);
    DeathFacts(born, n, x);
    SonFacts(Terminate(born, n), p, x);
  }

  lemma BrotherFacts(k: K, x: Tid)
    requires Structure(k) && |k.q.free| == 1 && Live(k.q, x) && k.tree.parent[x].None?
    ensures var n, born := k.q.free[0], BrotherBorn(k, x);
      && TreeOk(born.tree) && born.q.free == [] && Live(born.q, n) && born.tree.kids[n] == [] && n != x
      && born.tree.parent[x].None? && born.tree.kin[x] == n
  {
    hide Partition;
    var n := k.q.free[0];
    PartitionMeans(k.q);
    assert n in k.q.free && Dormant(k, n);
    FreshOk(k.tree, n);
    assert k.q.free[1..] == [];
  }

  lemma DeathFacts(k: K, n: Tid, x: Tid)
    requires TreeOk(k.tree) && Live(k.q, n) && k.tree.kids[n] == [] && k.q.free == []
    ensures var dead := Terminate(k, n);
      && dead.q.free == [n] && dead.tree.kin == k.tree.kin && (k.tree.parent[x].None? ==> dead.tree.parent[x].None?)
  {
    LeafOrder(k.tree, n);
  }

  lemma SonFacts(k: K, p: Tid, x: Tid)
    requires k.q.free != [] && x != k.q.free[0]
    ensures var n, born := k.q.free[0], SonBorn(k, p);
      born.tree.parent[n] == Some(p) && born.tree.parent[x] == k.tree.parent[x] && born.tree.kin[x] == k.tree.kin[x]
  {}
}
