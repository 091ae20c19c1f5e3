/** How the abstract kernel state is laid out in the linked lists, and that each list operation of the
    kernel carries the layout from one abstract state to the next. */
module Ties {
  import opened Types
  import opened Sequences
  import opened ProcessTree
  import opened ThreadQueues
  import opened Mailboxes
  import opened KernelSpec
  import opened Invariants
  import opened Listx
  import opened Store

  /** There are no rings but the two queues, the two free lists, and child lists and inboxes of threads. */
  ghost predicate KnownHeads(rings: Rings) {
    forall h :: h in rings ==> match h
      case Child(t) => t < NT
      case Inbox(t) => t < NT
      case _ => true
  }

  ghost predicate QueuesTied(q: Queues, rings: Rings) {
    && Ready in rings && rings[Ready] == q.ready
    && Wait in rings && rings[Wait] == q.wait
    && TcbFree in rings && rings[TcbFree] == q.free
  }

  ghost predicate TreeTied(q: Queues, tr: Tree, rings: Rings) {
    && (forall t: Tid :: Child(t) in rings ==> rings[Child(t)] == tr.kids[t])
    && (forall t: Tid :: Live(q, t) ==> Child(t) in rings)
  }

  ghost predicate MailTied(q: Queues, m: Mail, rings: Rings) {
    && MsgFree in rings && rings[MsgFree] == m.free
    && (forall t: Tid :: Inbox(t) in rings ==> rings[Inbox(t)] == Ids(m.inbox[t]))
    && (forall t: Tid :: Live(q, t) ==> Inbox(t) in rings)
  }

  ghost predicate ListsTied(k: K, rings: Rings) {
    KnownHeads(rings) && QueuesTied(k.q, rings) && TreeTied(k.q, k.tree, rings) && MailTied(k.q, k.mail, rings)
  }

  /** A control block that names a thread it waits for has been allocated at some time. */
  ghost predicate Touched(m: Mail, rings: Rings) {
    forall t: Tid :: m.waitingFor[t].Tcb? ==> Child(t) in rings
  }

  /** The contents of the messages in the inboxes. */
  ghost predicate MsgsTied(m: Mail, a: MsgArray) {
    forall t: Tid, i :: 0 <= i < |m.inbox[t]| ==>
      Letter(a.sender[m.inbox[t][i].id], a.message[m.inbox[t][i].id]) == m.inbox[t][i].letter
  }

  /** The node before a parentless thread's `t_sib`. Threads that `terminate` has just unlinked are exempt. */
  ghost predicate KinTied(q: Queues, tr: Tree, prev: Memory, doomed: set<Tid>) {
    forall t: Tid :: Live(q, t) && tr.parent[t].None? && t !in doomed ==>
      L(TSib, t) in prev && prev[L(TSib, t)] == L(TSib, tr.kin[t])
  }

  ghost predicate FieldsTied(k: K, a: TcbArray) {
    && a.parent == k.tree.parent && a.waitingFor == k.mail.waitingFor && a.v0 == k.mail.v0 && a.val == k.mail.val
    && a.sys == k.traps.sys && a.pgm == k.traps.pgm && a.tlb == k.traps.tlb
    && a.cpuTime == k.tm.cpuTime && a.cpuSlice == k.tm.cpuSlice
  }

  ghost predicate TiedBut(k: K, rings: Rings, prev: Memory, tcb: TcbArray, msg: MsgArray, doomed: set<Tid>) {
    && ListsTied(k, rings)
    && MsgsTied(k.mail, msg)
    && KinTied(k.q, k.tree, prev, doomed)
    && FieldsTied(k, tcb)
  }

  ghost predicate Tied(k: K, rings: Rings, prev: Memory, tcb: TcbArray, msg: MsgArray) {
    TiedBut(k, rings, prev, tcb, msg, {})
  }

  // ----- links that are on no ring -----

  lemma LooseThread(k: K, rings: Rings, t: Tid)
    requires ListsTied(k, rings) && t !in k.q.ready && t !in k.q.wait && t !in k.q.free
    ensures Loose(rings, L(TNext, t))
  {
    forall h | h in rings ensures !OnRing(rings, L(TNext, t), h) {}
  }

  lemma LooseSib(k: K, rings: Rings, t: Tid)
    requires ListsTied(k, rings) && TreeOk(k.tree) && k.tree.parent[t].None?
    ensures Loose(rings, L(TSib, t))
  {
    forall h | h in rings ensures !OnRing(rings, L(TSib, t), h) {
      if h.Child? {
        var p: Tid := h.t;
        assert rings[Child(p)] == k.tree.kids[p];
      }
    }
  }

  lemma FreeUnused(k: K, rings: Rings, t: Tid)
    requires ListsTied(k, rings) && Structure(k) && t in k.q.free
    ensures Loose(rings, L(TSib, t))
    ensures Child(t) in rings ==> rings[Child(t)] == []
    ensures Inbox(t) in rings ==> rings[Inbox(t)] == []
  {
    assert Dormant(k, t);
    LooseSib(k, rings, t);
    assert Ids([]) == [];
  }

  /** A parentless thread's `t_sib` is not written by work on child lists. */
  lemma KinKept(q: Queues, q': Queues, tr: Tree, tr': Tree, prev: Memory, prev': Memory, but: seq<nat>,
                doomed: set<Tid>, doomed': set<Tid>)
    requires KinTied(q, tr, prev, doomed) && SibsKept(prev, prev', but) && tr'.kin == tr.kin && doomed <= doomed'
    requires forall t: Tid :: Live(q', t) && tr'.parent[t].None? && t !in doomed' ==> Live(q, t) && tr.parent[t].None? && t !in but
    ensures KinTied(q', tr', prev', doomed')
  {}

  // ----- queue moves -----

  lemma WakeTied(k: K, rings: Rings, t: Tid, k': K)
    requires ListsTied(k, rings) && t in k.q.wait
    requires k'.q == Wake(k.q, t) && k'.tree == k.tree && k'.mail.inbox == k.mail.inbox && k'.mail.free == k.mail.free
    requires Partition(k.q)
    ensures ListsTied(k', rings[Wait := Remove(rings[Wait], t)][Ready := rings[Ready] + [t]])
    ensures forall x: Tid :: Live(k'.q, x) <==> Live(k.q, x)
  {
    PartitionMeans(k.q);
    RemoveIsMinus(k.q.wait, t);
  }

  lemma ParkTied(k: K, rings: Rings, h: Head, k': K)
    requires ListsTied(k, rings) && k.q.cur.Some? && (h == Ready || h == Wait)
    requires k'.q == (if h == Wait then Park(k.q) else Preempt(k.q))
    requires k'.tree == k.tree && k'.mail.inbox == k.mail.inbox && k'.mail.free == k.mail.free
    ensures ListsTied(k', rings[h := rings[h] + [k.q.cur.value]])
    ensures forall x: Tid :: Live(k'.q, x) <==> Live(k.q, x)
  {}

  lemma DispatchTied(k: K, rings: Rings, k': K)
    requires ListsTied(k, rings) && k.q.cur.None? && k.q.ready != []
    requires k'.q == Dispatch(k.q) && k'.tree == k.tree && k'.mail == k.mail
    ensures ListsTied(k', rings[Ready := rings[Ready][1..]])
    ensures forall x: Tid :: Live(k'.q, x) ==> Live(k.q, x)
  {
    assert k.q.ready == [k.q.ready[0]] + k.q.ready[1..];
  }

  // ----- mail moves -----

  lemma EnqueueTied(k: K, rings: Rings, msg: MsgArray, r: Tid, l: Letter, k': K)
    requires ListsTied(k, rings) && MsgsTied(k.mail, msg) && PoolOk(k.mail) && Live(k.q, r) && k.mail.free != []
    requires k' == k.(mail := Enqueue(k.mail, r, l))
    ensures var id, s := k.mail.free[0], rings[Inbox(r)];
      && ListsTied(k', rings[MsgFree := rings[MsgFree][1..]][Inbox(r) := if l.from == Timer then [id] + s else s + [id]])
      && MsgsTied(k'.mail, Msgs(msg.sender[id := l.from], msg.message[id := l.body]))
  {
    hide KnownHeads, QueuesTied, TreeTied, MailTied, MsgsTied, PoolOk, Enqueue;
    MailEnqueued(k.q, k.mail, rings, r, l);
    var id, s := k.mail.free[0], rings[Inbox(r)];
    var rings' := rings[MsgFree := rings[MsgFree][1..]][Inbox(r) := if l.from == Timer then [id] + s else s + [id]];
    MsgsEnqueued(k.mail, msg, r, l);
    NotMail(k.q, k.tree, rings, rings', r);
  }

  /** Message lists are no thread queues and no child lists. */
  lemma NotMail(q: Queues, tr: Tree, rings: Rings, rings': Rings, r: Tid)
    requires KnownHeads(rings) && QueuesTied(q, rings) && TreeTied(q, tr, rings)
    requires OnlyAt(rings, rings', {MsgFree, Inbox(r)})
    ensures KnownHeads(rings') && QueuesTied(q, rings') && TreeTied(q, tr, rings')
  {
    forall h | h in rings' ensures h in rings || h == MsgFree || h == Inbox(r) {}
  }

  lemma MailEnqueued(q: Queues, m: Mail, rings: Rings, r: Tid, l: Letter)
    requires MailTied(q, m, rings) && Live(q, r) && m.free != []
    ensures MsgFree in rings && rings[MsgFree] != [] && Inbox(r) in rings
    ensures var id, s := m.free[0], rings[Inbox(r)];
      MailTied(q, Enqueue(m, r, l), rings[MsgFree := rings[MsgFree][1..]][Inbox(r) := if l.from == Timer then [id] + s else s + [id]])
  {
    var x := Msg(m.free[0], l);
    assert Ids([x] + m.inbox[r]) == [x.id] + Ids(m.inbox[r]);
    assert Ids(m.inbox[r] + [x]) == Ids(m.inbox[r]) + [x.id];
  }

  lemma MsgsEnqueued(m: Mail, msg: MsgArray, r: Tid, l: Letter)
    requires MsgsTied(m, msg) && PoolOk(m) && m.free != []
    ensures var id := m.free[0]; MsgsTied(Enqueue(m, r, l), Msgs(msg.sender[id := l.from], msg.message[id := l.body]))
  {
    assert m.free[0] in m.free;
    forall t: Tid, i | 0 <= i < |m.inbox[t]| ensures m.inbox[t][i].id != m.free[0] {
      FreeNotHeld(m, t, i);
    }
  }

  /** A message in an inbox is not in the free list. */
  lemma FreeNotHeld(m: Mail, t: Tid, i: nat)
    requires PoolOk(m) && i < |m.inbox[t]|
    ensures m.inbox[t][i].id !in m.free
  {
    var id := m.inbox[t][i].id;
    assert Ids(m.inbox[t])[i] == id;
    HeldAtLeast(m.inbox, NT, t, id);
    assert multiset(m.free)[id] + Held(m.inbox, NT, id) == 1;
    assert id in multiset(Ids(m.inbox[t]));
  }

  lemma {:induction false} HeldAtLeast(inbox: seq<seq<Msg>>, n: nat, t: nat, id: Mid)
    requires n <= |inbox| && t < n
    ensures multiset(Ids(inbox[t]))[id] <= Held(inbox, n, id)
  {
    if t != n - 1 {
      HeldAtLeast(inbox, n - 1, t, id);
    }
  }

  lemma TakeTied(k: K, rings: Rings, msg: MsgArray, t: Tid, i: nat, k': K)
    requires ListsTied(k, rings) && MsgsTied(k.mail, msg) && i < |k.mail.inbox[t]| && Inbox(t) in rings
    requires k'.q == k.q && k'.tree == k.tree && k'.mail == Take(k.mail, t, i)
    ensures var s := rings[Inbox(t)]; ListsTied(k', rings[Inbox(t) := RemoveAt(s, i)][MsgFree := rings[MsgFree] + [s[i]]])
    ensures MsgsTied(k'.mail, msg)
  {
    assert Ids(RemoveAt(k.mail.inbox[t], i)) == RemoveAt(Ids(k.mail.inbox[t]), i);
  }

  // ----- tree moves -----

  lemma DetachTied(k: K, rings: Rings, t: Tid, k': K)
    requires ListsTied(k, rings) && k.tree.parent[t].Some? && Child(k.tree.parent[t].value) in rings
    requires k' == k.(tree := Detach(k.tree, t))
    ensures var h := Child(k.tree.parent[t].value); ListsTied(k', rings[h := Remove(rings[h], t)])
  {}

  lemma ReapOne(q: Queues, t: Tid)
    requires Partition(q) && Live(q, t)
    ensures Reap(q, [t]).ready == Remove(q.ready, t) && Reap(q, [t]).wait == Remove(q.wait, t)
    ensures forall x: Tid :: Live(Reap(q, [t]), x) <==> Live(q, x) && x != t
  {
    PartitionMeans(q);
    assert Elems([t]) == {t};
    RemoveIsMinus(q.ready, t);
    RemoveIsMinus(q.wait, t);
  }

  lemma PruneLeaf(tr: Tree, t: Tid)
    requires TreeOk(tr) && tr.parent[t] == None && tr.kids[t] == []
    ensures Prune(tr, {t}) == tr
  {
    forall x: Tid ensures Minus(tr.kids[x], {t}) == tr.kids[x] {
      MinusNone(tr.kids[x], {t});
    }
  }

  lemma DiscardOne(m: Mail, t: Tid)
    ensures Discard(m, [t]).inbox == m.inbox[t := []] && Discard(m, [t]).free == m.free + Ids(m.inbox[t])
  {
    assert [t][..0] == [];
    assert HeldBy(m.inbox, [t]) == HeldBy(m.inbox, []) + Ids(m.inbox[t]);
  }

  lemma MailReleased(q: Queues, q': Queues, m: Mail, rings: Rings, t: Tid, rings': Rings)
    requires MailTied(q, m, rings) && Gone(rings, rings', t)
    requires forall x: Tid :: Live(q', x) ==> Live(q, x)
    ensures MailTied(q', Discard(m, [t]), rings')
  {
    DiscardOne(m, t);
    assert Ids([]) == [];
  }

  lemma QueuesReleased(q: Queues, rings: Rings, t: Tid, rings': Rings)
    requires Partition(q) && Live(q, t) && QueuesTied(q, rings) && Gone(rings, rings', t)
    ensures QueuesTied(Reap(q, [t]), rings')
  {
    hide Partition, Reap;
    ReapOne(q, t);
    ReapFree(q, t);
  }

  lemma GoneMeans(rings: Rings, rings': Rings, t: Tid)
    requires Gone(rings, rings', t)
    ensures var hs := {Ready, Wait, TcbFree, MsgFree, Inbox(t)}; OnlyAt(rings, rings', hs) && hs <= rings.Keys
  {}

  lemma MsgsReleased(m: Mail, msg: MsgArray, t: Tid)
    requires MsgsTied(m, msg)
    ensures MsgsTied(Discard(m, [t]), msg)
  {
    DiscardOne(m, t);
  }

  lemma ReapFree(q: Queues, t: Tid)
    ensures Reap(q, [t]).free == q.free + [t]
  {}

  lemma TreeReleased(q: Queues, q': Queues, tr: Tree, rings: Rings, t: Tid, rings': Rings)
    requires TreeTied(q, tr, rings) && Gone(rings, rings', t)
    requires forall x: Tid :: Live(q', x) ==> Live(q, x)
    ensures TreeTied(q', tr, rings')
  {}

  lemma KnownKept(rings: Rings, rings': Rings, hs: set<Head>)
    requires KnownHeads(rings) && OnlyAt(rings, rings', hs) && hs <= rings.Keys
    ensures KnownHeads(rings')
  {
    forall h | h in rings' ensures h in rings {}
  }

  /** A childless, parentless thread leaves for the free list. */
  lemma ReleaseTied(k: K, rings: Rings, rings': Rings, msg: MsgArray, t: Tid, k': K)
    requires ListsTied(k, rings) && MsgsTied(k.mail, msg) && Partition(k.q) && Live(k.q, t) && Gone(rings, rings', t)
    requires k'.q == Reap(k.q, [t]) && k'.tree == k.tree && k'.mail == Discard(k.mail, [t])
    ensures ListsTied(k', rings') && MsgsTied(k'.mail, msg)
    ensures forall x: Tid :: Live(k'.q, x) ==> Live(k.q, x)
  {
    hide KnownHeads, QueuesTied, TreeTied, MailTied, MsgsTied, Partition, Reap, Discard, Gone;
    ReapOne(k.q, t);
    QueuesReleased(k.q, rings, t, rings');
    GoneMeans(rings, rings', t);
    MsgsReleased(k.mail, msg, t);
    MailReleased(k.q, k'.q, k.mail, rings, t, rings');
    TreeReleased(k.q, k'.q, k.tree, rings, t, rings');
    KnownKept(rings, rings', {Ready, Wait, TcbFree, MsgFree, Inbox(t)});
  }

  /** A reset control block, once it is in ready_queue and has its place in the tree. */
  lemma ClaimTied(k: K, rings: Rings, k': K)
    requires ListsTied(k, rings) && Structure(k) && k.q.free != []
    requires k'.q == Claim(k.q) && k'.mail.free == k.mail.free && k'.mail.inbox == k.mail.inbox[k.q.free[0] := []]
    requires k'.tree.kids == k.tree.kids
    ensures var n := k.q.free[0];
      ListsTied(k', rings[TcbFree := rings[TcbFree][1..]][Child(n) := []][Inbox(n) := []][Ready := rings[Ready] + [n]])
    ensures forall x: Tid :: Live(k'.q, x) ==> Live(k.q, x) || x == k.q.free[0]
  {
    hide PoolOk, TreeOk, Partition, KnownHeads;
    var n := k.q.free[0];
    assert n in k.q.free && Dormant(k, n);
    assert Ids([]) == [];
    KnownClaimed(rings, n, rings[Ready] + [n]);
  }

  lemma KnownClaimed(rings: Rings, n: Tid, ready: seq<nat>)
    requires KnownHeads(rings) && TcbFree in rings && rings[TcbFree] != []
    ensures KnownHeads(rings[TcbFree := rings[TcbFree][1..]][Child(n) := []][Inbox(n) := []][Ready := ready])
  {}

  // ----- whole states -----

  /** Memory im lays out the well-formed state k. */
  ghost predicate Laid(k: K, im: Image, doomed: set<Tid>) {
    && TiedBut(k, im.rings, im.prev, im.tcb, im.msg, doomed)
    && Structure(k) && NobodyAwaitsSsi(k.mail) && Touched(k.mail, im.rings)
  }

  /** What a layout says about the queues and the fields. */
  lemma LaidMeans(k: K, im: Image, doomed: set<Tid>)
    requires Laid(k, im, doomed)
    ensures QueuesTied(k.q, im.rings) && FieldsTied(k, im.tcb)
    ensures MsgFree in im.rings && im.rings[MsgFree] == k.mail.free
    ensures forall t: Tid :: Live(k.q, t) ==> Child(t) in im.rings && Inbox(t) in im.rings
    ensures k.threadCount == NT - |k.q.free| && Aged(k.tree) && TreeOk(k.tree)
  {}

  /** Changes that leave lists, messages and waiting alone. */
  lemma LaidFrame(k: K, im: Image, doomed: set<Tid>, k': K, im': Image)
    requires Laid(k, im, doomed)
    requires k'.q == k.q && k'.tree == k.tree && k'.threadCount == k.threadCount
    requires k'.mail.inbox == k.mail.inbox && k'.mail.free == k.mail.free && k'.mail.waitingFor == k.mail.waitingFor
    requires im'.rings == im.rings && im'.prev == im.prev && im'.msg == im.msg && FieldsTied(k', im'.tcb)
    ensures Laid(k', im', doomed)
  {}

  /** `Post` turns a layout of k into a layout of k with the message queued. */
  lemma QueueLaid(k: K, im: Image, r: Tid, l: Letter, im': Image)
    requires Laid(k, im, {}) && Live(k.q, r)
    requires Posted(im.rings, im.msg, r, l, im'.rings, im'.msg) && SibsKept(im.prev, im'.prev, []) && im'.tcb == im.tcb
    ensures k.mail.free != [] && Laid(k.(mail := Enqueue(k.mail, r, l)), im', {})
  {
    var k' := k.(mail := Enqueue(k.mail, r, l));
    EnqueueTied(k, im.rings, im.msg, r, l, k');
    EnqueuePool(k.mail, r, l);
    PartitionMeans(k.q);
    KinKept(k.q, k'.q, k.tree, k'.tree, im.prev, im'.prev, [], {}, {});
  }

  /** The rings after `WakeUp`. */
  function Woken(rings: Rings, t: nat): (r: Rings)
    requires Wait in rings && Ready in rings
  {
    rings[Wait := Remove(rings[Wait], t)][Ready := rings[Ready] + [t]]
  }

  lemma HandOverLaid(k: K, im: Image, r: Tid, l: Letter, im': Image)
    requires Laid(k, im, {}) && r in k.q.wait && Wait in im.rings && Ready in im.rings
    requires im'.rings == Woken(im.rings, r) && SibsKept(im.prev, im'.prev, []) && im'.msg == im.msg
    requires im'.tcb == im.tcb.(waitingFor := im.tcb.waitingFor[r := Magic], v0 := im.tcb.v0[r := l.from], val := im.tcb.val[r := l.body])
    ensures Laid(k.(q := Wake(k.q, r), mail := HandOver(k.mail, r, l)), im', {})
  {
    var k' := k.(q := Wake(k.q, r), mail := HandOver(k.mail, r, l));
    WakeTied(k, im.rings, r, k');
    WakeOk(k.q, r);
    KinKept(k.q, k'.q, k.tree, k'.tree, im.prev, im'.prev, [], {}, {});
  }

  lemma ResumeLaid(k: K, im: Image, r: Tid, im': Image)
    requires Laid(k, im, {}) && r in k.q.wait && Wait in im.rings && Ready in im.rings
    requires im'.rings == Woken(im.rings, r) && SibsKept(im.prev, im'.prev, []) && im'.msg == im.msg && im'.tcb == im.tcb
    ensures Laid(Resume(k, r), im', {})
  {
    WakeTied(k, im.rings, r, Resume(k, r));
    WakeOk(k.q, r);
    KinKept(k.q, Resume(k, r).q, k.tree, k.tree, im.prev, im'.prev, [], {}, {});
  }

  lemma BlockLaid(k: K, im: Image, a: Addr, frozen: bool, im': Image)
    requires Laid(k, im, {}) && k.q.cur.Some? && a != Tcb(SSI) && Wait in im.rings
    requires im'.rings == im.rings[Wait := im.rings[Wait] + [k.q.cur.value]] && SibsKept(im.prev, im'.prev, []) && im'.msg == im.msg
    requires var t := k.q.cur.value;
      im'.tcb == im.tcb.(waitingFor := im.tcb.waitingFor[t := a], v0 := if frozen then im.tcb.v0 else im.tcb.v0[t := Null])
    ensures Laid(Block(k, a, frozen), im', {})
  {
    ParkTied(k, im.rings, Wait, Block(k, a, frozen));
    ParkOk(k.q);
    KinKept(k.q, Park(k.q), k.tree, k.tree, im.prev, im'.prev, [], {}, {});
  }

  lemma PreemptLaid(k: K, im: Image, im': Image)
    requires Laid(k, im, {}) && k.q.cur.Some? && Ready in im.rings
    requires im'.rings == im.rings[Ready := im.rings[Ready] + [k.q.cur.value]]
    requires SibsKept(im.prev, im'.prev, []) && im'.msg == im.msg && im'.tcb == im.tcb
    ensures Laid(k.(q := Preempt(k.q)), im', {})
  {
    ParkTied(k, im.rings, Ready, k.(q := Preempt(k.q)));
    ParkOk(k.q);
    KinKept(k.q, Preempt(k.q), k.tree, k.tree, im.prev, im'.prev, [], {}, {});
  }

  lemma DispatchLaid(k: K, im: Image, im': Image)
    requires Laid(k, im, {}) && k.q.cur.None? && k.q.ready != [] && Ready in im.rings && im.rings[Ready] != []
    requires im'.rings == im.rings[Ready := im.rings[Ready][1..]]
    requires SibsKept(im.prev, im'.prev, []) && im'.msg == im.msg && im'.tcb == im.tcb
    ensures Laid(k.(q := Dispatch(k.q)), im', {})
  {
    DispatchTied(k, im.rings, k.(q := Dispatch(k.q)));
    DispatchOk(k.q);
    KinKept(k.q, Dispatch(k.q), k.tree, k.tree, im.prev, im'.prev, [], {}, {});
  }

  // ----- creation -----

  /** The new control block in the lists, before it has its place in the tree. */
  lemma BornTied(k: K, rings: Rings, k': K)
    requires ListsTied(k, rings) && Structure(k) && k.q.free != []
    requires k'.q == Claim(k.q) && k'.mail == Renew(k.mail, k.q.free[0]) && k'.tree.kids == k.tree.kids
    ensures var n := k.q.free[0]; ListsTied(k', Born(rings, n)[Ready := rings[Ready] + [n]])
    ensures forall x: Tid :: Live(k'.q, x) <==> Live(k.q, x) || x == k.q.free[0]
  {
    ClaimTied(k, rings, k');
    assert k.q.free == [k.q.free[0]] + k.q.free[1..];
  }

  lemma AdoptTied(k: K, rings: Rings, p: Tid, n: Tid, k': K)
    requires ListsTied(k, rings) && Live(k.q, p)
    requires k'.q == k.q && k'.mail == k.mail && k'.tree.kids == k.tree.kids[p := k.tree.kids[p] + [n]]
    ensures ListsTied(k', rings[Child(p) := rings[Child(p)] + [n]])
  {}

  lemma FreeFacts(k: K, im: Image)
    requires Laid(k, im, {}) && k.q.free != []
    ensures forall x :: x in im.rings[TcbFree] ==> Loose(im.rings, L(TSib, x))
    ensures forall x :: x in im.rings[TcbFree] && Child(x) in im.rings ==> im.rings[Child(x)] == []
    ensures forall x :: x in im.rings[TcbFree] && Inbox(x) in im.rings ==> im.rings[Inbox(x)] == []
    ensures k.q.free[0] in k.q.free && Dormant(k, k.q.free[0]) && !Live(k.q, k.q.free[0])
  {
    PartitionMeans(k.q);
    forall x: Tid | x in k.q.free
      ensures Loose(im.rings, L(TSib, x))
      ensures Child(x) in im.rings ==> im.rings[Child(x)] == []
      ensures Inbox(x) in im.rings ==> im.rings[Inbox(x)] == []
    {
      FreeUnused(k, im.rings, x);
    }
    assert k.q.free[0] in k.q.free;
  }

  lemma MsgsRenewed(m: Mail, a: MsgArray, n: Tid)
    requires MsgsTied(m, a)
    ensures MsgsTied(Renew(m, n), a)
  {}

  /** Structure and waiting after a birth, with the new tree given. */
  lemma BornStructure(k: K, im: Image, tree: Tree, rings': Rings)
    requires Laid(k, im, {}) && k.q.free != [] && TreeOk(tree) && im.rings.Keys <= rings'.Keys
    requires forall t: Tid :: t in k.q.free && t != k.q.free[0] ==> tree.parent[t] == None && tree.kids[t] == []
    ensures var k' := Spawn(k, tree, k.q.free[0]);
      Structure(k') && NobodyAwaitsSsi(k'.mail) && Touched(k'.mail, rings') && MsgsTied(k'.mail, im.msg)
  {
    SpawnStructure(k, tree);
    MsgsRenewed(k.mail, im.msg, k.q.free[0]);
  }

  lemma ChildStructure(k: K, im: Image, p: Tid, rings': Rings)
    requires Laid(k, im, {}) && k.q.free != [] && Live(k.q, p) && im.rings.Keys <= rings'.Keys
    ensures var k' := Spawn(k, Adopt(Fresh(k.tree, k.q.free[0]), p, k.q.free[0]), k.q.free[0]);
      Structure(k') && NobodyAwaitsSsi(k'.mail) && Touched(k'.mail, rings') && MsgsTied(k'.mail, im.msg)
  {
    var n := k.q.free[0];
    FreeFacts(k, im);
    FreshOk(k.tree, n);
    AdoptOk(Fresh(k.tree, n), p, n);
    PartitionMeans(k.q);
    forall t: Tid | t in k.q.free && t != n
      ensures Adopt(Fresh(k.tree, n), p, n).parent[t] == None && Adopt(Fresh(k.tree, n), p, n).kids[t] == []
    {
      assert Dormant(k, t);
    }
    BornStructure(k, im, Adopt(Fresh(k.tree, n), p, n), rings');
  }

  lemma ChildLists(k: K, rings: Rings, p: Tid, k': K)
    requires ListsTied(k, rings) && Structure(k) && k.q.free != [] && Live(k.q, p)
    requires k' == Spawn(k, Adopt(Fresh(k.tree, k.q.free[0]), p, k.q.free[0]), k.q.free[0])
    ensures var n := k.q.free[0];
      ListsTied(k', Born(rings, n)[Child(p) := rings[Child(p)] + [n]][Ready := rings[Ready] + [n]])
    ensures forall x: Tid :: Live(k'.q, x) ==> Live(k.q, x) || x == k.q.free[0]
  {
    var n := k.q.free[0];
    var mid := k'.(tree := Fresh(k.tree, n));
    assert n in k.q.free && Dormant(k, n);
    PartitionMeans(k.q);
    assert mid.tree.kids == k.tree.kids;
    BornTied(k, rings, mid);
    var r := Born(rings, n)[Ready := rings[Ready] + [n]];
    AdoptTied(mid, r, p, n, k');
    assert r[Child(p) := rings[Child(p)] + [n]] == Born(rings, n)[Child(p) := rings[Child(p)] + [n]][Ready := rings[Ready] + [n]];
  }

  /** `SpawnChild` lays out the state with a new child of p. */
  lemma ChildLaid(k: K, im: Image, p: Tid, im': Image)
    requires Laid(k, im, {}) && k.q.free != [] && Live(k.q, p) && Child(p) in im.rings && Ready in im.rings && TcbFree in im.rings
    requires im.rings[TcbFree] == k.q.free
    requires var n := k.q.free[0];
      && im'.rings == Born(im.rings, n)[Child(p) := im.rings[Child(p)] + [n]][Ready := im.rings[Ready] + [n]]
      && SibsKept(im.prev, im'.prev, im.rings[Child(p)] + [n]) && im'.msg == im.msg
      && im'.tcb == ResetTcb(im.tcb, n).(parent := im.tcb.parent[n := Some(p)])
    ensures Laid(Spawn(k, Adopt(Fresh(k.tree, k.q.free[0]), p, k.q.free[0]), k.q.free[0]), im', {})
  {
    hide ListsTied, Structure, KinTied, NobodyAwaitsSsi, Touched, MsgsTied, SibsKept;
    var n := k.q.free[0];
    var k' := Spawn(k, Adopt(Fresh(k.tree, n), p, n), n);
    ChildStructure(k, im, p, im'.rings);
    ChildLists(k, im.rings, p, k');
    ChildKin(k, im, p, n, k', im');
    assert FieldsTied(k', im'.tcb);
  }

  lemma ChildKin(k: K, im: Image, p: Tid, n: Tid, k': K, im': Image)
    requires Laid(k, im, {})
    requires Child(p) in im.rings && SibsKept(im.prev, im'.prev, im.rings[Child(p)] + [n])
    requires k'.tree == Adopt(Fresh(k.tree, n), p, n) && forall x: Tid :: Live(k'.q, x) ==> Live(k.q, x) || x == n
    ensures KinTied(k'.q, k'.tree, im'.prev, {})
  {
    forall x: Tid | Live(k'.q, x) && k'.tree.parent[x].None? ensures x !in k.tree.kids[p] + [n] {}
  }

  /** `SpawnSibling` lays out the state with a new parentless brother of b. */
  lemma SiblingLaid(k: K, im: Image, b: Tid, im': Image)
    requires Laid(k, im, {}) && k.q.free != [] && Live(k.q, b) && k.tree.parent[b].None? && Ready in im.rings && TcbFree in im.rings
    requires im.rings[TcbFree] == k.q.free
    requires L(TSib, b) in im.prev && L(TSib, b) in im'.prev
    requires var n := k.q.free[0];
      && im'.rings == Born(im.rings, n)[Ready := im.rings[Ready] + [n]] && im'.msg == im.msg && im'.tcb == ResetTcb(im.tcb, n)
      && im'.prev[L(TSib, b)] == L(TSib, n) && L(TSib, n) in im'.prev && im'.prev[L(TSib, n)] == im.prev[L(TSib, b)]
      && SibsKept(im.prev, im'.prev, [b, n])
    ensures Laid(Spawn(k, Befriend(Fresh(k.tree, k.q.free[0]), b, k.q.free[0]), k.q.free[0]), im', {})
  {
    hide ListsTied, Structure, NobodyAwaitsSsi, Touched, MsgsTied;
    var n := k.q.free[0];
    var k' := Spawn(k, Befriend(Fresh(k.tree, n), b, n), n);
    SiblingStructure(k, im, b, im'.rings);
    SiblingLists(k, im.rings, b, k');
    assert KinTied(k'.q, k'.tree, im'.prev, {});
    assert FieldsTied(k', im'.tcb);
  }

  lemma SiblingStructure(k: K, im: Image, b: Tid, rings': Rings)
    requires Laid(k, im, {}) && k.q.free != [] && im.rings.Keys <= rings'.Keys
    ensures var k' := Spawn(k, Befriend(Fresh(k.tree, k.q.free[0]), b, k.q.free[0]), k.q.free[0]);
      Structure(k') && NobodyAwaitsSsi(k'.mail) && Touched(k'.mail, rings') && MsgsTied(k'.mail, im.msg)
  {
    var n := k.q.free[0];
    FreeFacts(k, im);
    FreshOk(k.tree, n);
    forall t: Tid | t in k.q.free && t != n ensures Fresh(k.tree, n).parent[t] == None && Fresh(k.tree, n).kids[t] == [] {
      assert Dormant(k, t);
    }
    BornStructure(k, im, Befriend(Fresh(k.tree, n), b, n), rings');
  }

  lemma SiblingLists(k: K, rings: Rings, b: Tid, k': K)
    requires ListsTied(k, rings) && Structure(k) && k.q.free != []
    requires k' == Spawn(k, Befriend(Fresh(k.tree, k.q.free[0]), b, k.q.free[0]), k.q.free[0])
    ensures ListsTied(k', Born(rings, k.q.free[0])[Ready := rings[Ready] + [k.q.free[0]]])
    ensures forall x: Tid :: Live(k'.q, x) ==> Live(k.q, x) || x == k.q.free[0]
  {
    assert k.q.free[0] in k.q.free && Dormant(k, k.q.free[0]);
    assert k'.tree.kids == k.tree.kids;
    BornTied(k, rings, k');
  }

  // ----- recv -----

  /** Where a search by sender stops in the list is where it stops in the inbox. */
  lemma FoundInBoth(k: K, rings: Rings, msg: MsgArray, t: Tid, a: Addr, i: nat)
    requires MailTied(k.q, k.mail, rings) && MsgsTied(k.mail, msg) && Live(k.q, t)
    requires var s := rings[Inbox(t)];
      && i <= |s| && (i < |s| ==> s[i] < NM && msg.sender[s[i]] == a)
      && (forall j :: 0 <= j < i ==> !(s[j] < NM && msg.sender[s[j]] == a))
    ensures i == FirstFrom(k.mail.inbox[t], a)
  {
    var s, box := rings[Inbox(t)], k.mail.inbox[t];
    assert forall j :: 0 <= j < |box| ==> s[j] == box[j].id && msg.sender[s[j]] == box[j].letter.from;
    FirstFromUnique(box, a, i);
  }

  lemma FirstFromUnique(box: seq<Msg>, a: Addr, i: nat)
    requires i <= |box| && (i < |box| ==> box[i].letter.from == a)
    requires forall j :: 0 <= j < i ==> box[j].letter.from != a
    ensures i == FirstFrom(box, a)
  {}

  /** Where `Receive` stopped. */
  ghost predicate Stopped(s: seq<nat>, msg: MsgArray, a: Addr, i: nat) {
    && i <= |s| && (a == Null ==> i == 0)
    && (i < |s| ==> s[i] < NM && (a == Null || msg.sender[s[i]] == a))
    && (forall j :: 0 <= j < i ==> !(s[j] < NM && msg.sender[s[j]] == a))
  }

  lemma StoppedMeans(k: K, rings: Rings, msg: MsgArray, t: Tid, a: Addr, i: nat)
    requires ListsTied(k, rings) && MsgsTied(k.mail, msg) && Live(k.q, t) && Stopped(rings[Inbox(t)], msg, a, i)
    ensures |rings[Inbox(t)]| == |k.mail.inbox[t]|
    ensures i == if a == Null then 0 else FirstFrom(k.mail.inbox[t], a)
  {
    if a != Null {
      FoundInBoth(k, rings, msg, t, a, i);
    }
  }

  lemma NothingReceived(k: K, im: Image, a: Addr)
    requires Laid(k, im, {}) && k.q.cur.Some? && Inbox(k.q.cur.value) in im.rings
    requires Stopped(im.rings[Inbox(k.q.cur.value)], im.msg, a, |im.rings[Inbox(k.q.cur.value)]|)
    ensures KernelSpec.Recv(k, a) == Block(k, a, false)
  {
    StoppedMeans(k, im.rings, im.msg, k.q.cur.value, a, |im.rings[Inbox(k.q.cur.value)]|);
  }

  lemma TakeLaid(k: K, im: Image, t: Tid, i: nat, soft: nat, im': Image)
    requires Laid(k, im, {}) && Live(k.q, t) && i < |k.mail.inbox[t]| && Inbox(t) in im.rings && i < |im.rings[Inbox(t)]| && MsgFree in im.rings
    requires var s := im.rings[Inbox(t)];
      im'.rings == im.rings[Inbox(t) := RemoveAt(s, i)][MsgFree := im.rings[MsgFree] + [s[i]]]
    requires var l := k.mail.inbox[t][i].letter;
      im'.tcb == im.tcb.(v0 := im.tcb.v0[t := l.from], val := im.tcb.val[t := l.body])
    requires SibsKept(im.prev, im'.prev, []) && im'.msg == im.msg
    ensures Laid(k.(mail := Take(k.mail, t, i), softBlock := soft), im', {})
  {
    var k' := k.(mail := Take(k.mail, t, i), softBlock := soft);
    TakeTied(k, im.rings, im.msg, t, i, k');
    TakePool(k.mail, t, i);
    PartitionMeans(k.q);
    KinKept(k.q, k'.q, k.tree, k'.tree, im.prev, im'.prev, [], {}, {});
  }

  /** A message was found: the memory now lays out the state after `recv`. */
  lemma ReceivedLaid(k: K, im: Image, a: Addr, i: nat, l: Letter, im': Image)
    requires Laid(k, im, {}) && k.q.cur.Some? && Inbox(k.q.cur.value) in im.rings && MsgFree in im.rings
    requires var s := im.rings[Inbox(k.q.cur.value)];
      && Stopped(s, im.msg, a, i) && i < |s| && l == Letter(im.msg.sender[s[i]], im.msg.message[s[i]])
      && im'.rings == im.rings[Inbox(k.q.cur.value) := RemoveAt(s, i)][MsgFree := im.rings[MsgFree] + [s[i]]]
    requires var t := k.q.cur.value; im'.tcb == im.tcb.(v0 := im.tcb.v0[t := l.from], val := im.tcb.val[t := l.body])
    requires SibsKept(im.prev, im'.prev, []) && im'.msg == im.msg
    ensures var k' := KernelSpec.Recv(k, a);
      && Laid(k', im', {})
      && k' == k.(mail := k'.mail, softBlock := if a == Magic then Sub32(k.softBlock, 1) else k.softBlock)
  {
    var t := k.q.cur.value;
    StoppedMeans(k, im.rings, im.msg, t, a, i);
    assert Ids(k.mail.inbox[t])[i] == k.mail.inbox[t][i].id;
    TakeLaid(k, im, t, i, KernelSpec.Recv(k, a).softBlock, im');
  }

  // ----- terminate -----

  /** `outChild` or `removeChild` of t, on its way out. */
  lemma DetachLaid(k: K, im: Image, doomed: set<Tid>, t: Tid, im': Image)
    requires Laid(k, im, doomed) && Live(k.q, t) && k.tree.parent[t].Some? && Child(k.tree.parent[t].value) in im.rings
    requires var h := Child(k.tree.parent[t].value);
      im'.rings == im.rings[h := Remove(im.rings[h], t)] && SibsKept(im.prev, im'.prev, im.rings[h])
    requires im'.tcb == im.tcb.(parent := im.tcb.parent[t := None]) && im'.msg == im.msg
    ensures Laid(k.(tree := Detach(k.tree, t)), im', doomed + {t})
  {
    var k' := k.(tree := Detach(k.tree, t));
    var p := k.tree.parent[t].value;
    DetachTied(k, im.rings, t, k');
    DetachOk(k.tree, t);
    PartitionMeans(k.q);
    assert im.rings[Child(p)] == k.tree.kids[p];
    KinKept(k.q, k'.q, k.tree, k'.tree, im.prev, im'.prev, k.tree.kids[p], doomed, doomed + {t});
    forall x: Tid | x in k.q.free ensures Dormant(k', x) {
      assert Dormant(k, x);
      MinusNone(k.tree.kids[x], {t});
    }
  }

  /** `Retire` of a thread without relatives. */
  lemma RetireLaid(k: K, im: Image, doomed: set<Tid>, t: Tid, im': Image)
    requires Laid(k, im, doomed + {t}) && Live(k.q, t) && k.tree.parent[t] == None && k.tree.kids[t] == []
    requires Gone(im.rings, im'.rings, t) && SibsKept(im.prev, im'.prev, []) && im'.tcb == im.tcb && im'.msg == im.msg
    ensures Laid(Kill(k, [t]), im', doomed)
    ensures Kill(k, [t]).threadCount == k.threadCount - 1
    ensures im.rings.Keys <= im'.rings.Keys
  {
    var k' := Kill(k, [t]);
    assert Elems([t]) == {t};
    PruneLeaf(k.tree, t);
    ReleaseTied(k, im.rings, im'.rings, im.msg, t, k');
    ReapOne(k.q, t);
    KinKept(k.q, k'.q, k.tree, k'.tree, im.prev, im'.prev, [], doomed + {t}, doomed + {t});
    RetiredStructure(k, t);
  }

  lemma NotRetiredLaid(k: K, im: Image, doomed: set<Tid>, t: Tid, im': Image)
    requires Laid(k, im, doomed + {t}) && !Live(k.q, t)
    requires im'.rings == im.rings && SibsKept(im.prev, im'.prev, []) && im'.tcb == im.tcb && im'.msg == im.msg
    ensures Laid(Panic(k), im', doomed)
  {
    KinKept(k.q, k.q, k.tree, k.tree, im.prev, im'.prev, [], doomed + {t}, doomed + {t});
  }

  lemma RetiredStructure(k: K, t: Tid)
    requires Structure(k) && Live(k.q, t) && k.tree.kids[t] == []
    ensures Structure(Kill(k, [t])) && Kill(k, [t]).threadCount == k.threadCount - 1
  {
    LeafOrder(k.tree, t);
    KillStructure(k, t);
    assert NoDup([t]);
    ReapOk(k.q, [t]);
    KillCount(k, [t]);
  }
}
