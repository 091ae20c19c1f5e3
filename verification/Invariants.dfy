/** What holds in every reachable state, and why each part of a handler keeps it. */
module Invariants {
  import opened Types
  import opened Sequences
  import opened ProcessTree
  import opened ThreadQueues
  import opened Mailboxes
  import opened KernelSpec
  import Timing
  import Devices
  import Frames
  import Slots

  /** A control block in the free list has no relatives and holds no message. */
  ghost predicate Dormant(k: K, t: Tid) {
    k.tree.parent[t] == None && k.tree.kids[t] == [] && k.mail.inbox[t] == []
  }

  /** Both pools are partitioned, the tree is well formed, and nobody is related to a dead thread. */
  ghost predicate Structure(k: K) {
    && Partition(k.q)
    && TreeOk(k.tree)
    && PoolOk(k.mail)
    && k.threadCount == NT - |k.q.free|
    && (forall t: Tid :: t in k.q.free ==> Dormant(k, t))
  }

  /** Every channel is FIFO and exact, no blocked receiver has what it waits for, ticks come first. */
  ghost predicate MailOk(k: K) {
    && (forall t: Tid :: Live(k.q, t) ==> DeliveryOk(k.mail, t))
    && (forall t: Tid :: t in k.q.wait && !k.mail.frozen[t] ==> Quiet(k.mail, t))
    && (forall t: Tid :: TicksFirst(k.mail.inbox[t]))
  }

  /** The SSI is alive, childless and parentless, and everything it is asked is well formed. */
  ghost predicate SsiOk(k: K) {
    && Live(k.q, SSI)
    && k.tree.parent[SSI] == None && k.tree.kids[SSI] == []
    && !k.mail.frozen[SSI]
    && (k.mail.waitingFor[SSI] == Null || k.mail.waitingFor[SSI] == Magic)
    && (SSI in k.q.wait ==> k.mail.waitingFor[SSI] == Null && k.ssi.pc == Got)
    && (forall i :: 0 <= i < |k.mail.inbox[SSI]| ==> LetterOk(k.written, k.mail.inbox[SSI][i].letter))
    && (k.ssi.pc == Got && SSI !in k.q.wait ==> LetterOk(k.written, HeldLetter(k)))
    && (k.ssi.pc == Sending <==> k.ssi.outbox != [])
    && |k.ssi.clock| <= NT - 1
    && NotWaiting(k.ssi)
    && WrittenOk(k.written)
  }

  /** Entry n of the interrupt handler writes slot n modulo 48, with a tick or a status. */
  ghost predicate WrittenOk(written: seq<Option<Letter>>) {
    forall n :: 0 <= n < |written| && written[n].Some? ==> IrqOk(written[n].value) && written[n].value.body.at == n % SLOTS
  }

  predicate IrqOk(l: Letter) {
    && l.body.Irq? && (l.body.service == PSEUDOCLOCK_MSG || l.body.service == INTERRUPT_MSG) && l.body.status < U32
  }

  /** The SSI owes itself nothing. */
  ghost predicate NotWaiting(s: Ssi) {
    && (forall i :: 0 <= i < |s.outbox| ==> s.outbox[i].to != SSI)
    && (forall i :: 0 <= i < |s.clock| ==> s.clock[i] != SSI)
    && (forall i :: 0 <= i < |s.dev| ==> s.dev[i] != Waiter(SSI))
  }

  predicate ClientAddr(a: Addr) {
    a == Null || (a.Tcb? && a.t != SSI)
  }

  /** The SSI is never a trap manager and nobody waits for it by its own address. */
  ghost predicate TrapsOk(k: K) {
    && NobodyAwaitsSsi(k.mail)
    && (forall t: Tid :: ClientAddr(k.traps.sys[t]) && ClientAddr(k.traps.pgm[t]) && ClientAddr(k.traps.tlb[t]))
    && Tcb(SSI) !in k.traps.managers
    && (forall t: Tid :: t in k.q.wait && k.mail.frozen[t] ==> k.mail.waitingFor[t].Tcb?)
  }

  /** All of it, except the counters and the clock. */
  ghost predicate Safe(k: K) {
    Structure(k) && MailOk(k) && SsiOk(k) && TrapsOk(k)
  }

  // ----- send -----

  lemma EnqueueSafe(k: K, r: Tid, l: Letter)
    requires Safe(k) && k.mail.free != [] && Live(k.q, r) && !Wakes(k, l.from, r)
    requires r == SSI ==> LetterOk(k.written, l)
    ensures Safe(k.(mail := Enqueue(k.mail, r, l)))
  {
    hide DeliveryOk, PoolOk, TreeOk, LetterOk, Devices.RestIndex;
    var k' := k.(mail := Enqueue(k.mail, r, l));
    PartitionMeans(k.q);
    EnqueuePool(k.mail, r, l);
    forall t: Tid | Live(k.q, t) ensures DeliveryOk(k'.mail, t) {
      EnqueueDelivery(k.mail, r, l, t);
    }
  }

  lemma HandOverSafe(k: K, r: Tid, l: Letter)
    requires Safe(k) && Wakes(k, l.from, r) && !k.mail.frozen[r]
    requires r == SSI ==> LetterOk(k.written, l)
    ensures Safe(k.(q := Wake(k.q, r), mail := HandOver(k.mail, r, l)))
  {
    hide MailOk, SsiOk, TrapsOk, Structure;
    HandOverStructure(k, r, l);
    HandOverMail(k, r, l);
    HandOverSsi(k, r, l);
    HandOverTraps(k, r, l);
  }

  lemma HandOverStructure(k: K, r: Tid, l: Letter)
    requires Structure(k) && r in k.q.wait
    ensures Partition(k.q) && Structure(k.(q := Wake(k.q, r), mail := HandOver(k.mail, r, l)))
  {
    hide TreeOk, Partition;
    WakeOk(k.q, r);
  }

  lemma HandOverSsi(k: K, r: Tid, l: Letter)
    requires Partition(k.q) && SsiOk(k) && r in k.q.wait && (r == SSI ==> LetterOk(k.written, l))
    ensures SsiOk(k.(q := Wake(k.q, r), mail := HandOver(k.mail, r, l)))
  {
    hide LetterOk, Partition;
    PartitionMeans(k.q);
    RemoveIsMinus(k.q.wait, r);
  }

  lemma HandOverTraps(k: K, r: Tid, l: Letter)
    requires Partition(k.q) && TrapsOk(k) && r in k.q.wait
    ensures TrapsOk(k.(q := Wake(k.q, r), mail := HandOver(k.mail, r, l)))
  {
    hide Partition;
    PartitionMeans(k.q);
    RemoveIsMinus(k.q.wait, r);
  }

  lemma HandOverMail(k: K, r: Tid, l: Letter)
    requires Partition(k.q) && MailOk(k) && Wakes(k, l.from, r) && !k.mail.frozen[r]
    ensures MailOk(k.(q := Wake(k.q, r), mail := HandOver(k.mail, r, l)))
  {
    hide DeliveryOk;
    var k' := k.(q := Wake(k.q, r), mail := HandOver(k.mail, r, l));
    PartitionMeans(k.q);
    RemoveIsMinus(k.q.wait, r);
    forall t: Tid | Live(k'.q, t) ensures DeliveryOk(k'.mail, t) {
      HandOverDelivery(k.mail, r, l, t);
    }
  }

  /** `send` keeps everything, as long as it wakes no frozen thread and the SSI can read the message. */
  lemma SendSafe(k: K, sender: Addr, target: Addr, body: Payload)
    requires Safe(k) && !WakesFrozen(k, Alias(sender), target)
    requires target == Tcb(SSI) ==> LetterOk(k.written, Letter(Alias(sender), body))
    ensures Safe(Send(k, sender, target, body))
    ensures Send(k, sender, target, body).q.cur == k.q.cur
  {
    var l := Letter(Alias(sender), body);
    if target.Tcb? && Live(k.q, target.t) {
      if Wakes(k, l.from, target.t) {
        HandOverSafe(k, target.t, l);
      } else if k.mail.free != [] {
        EnqueueSafe(k, target.t, l);
      }
    }
  }

  // ----- recv -----

  /** t may start waiting for a: nothing of that kind is in its inbox. */
  ghost predicate NothingFrom(s: seq<Msg>, a: Addr) {
    (a == Null ==> s == []) && forall i :: 0 <= i < |s| ==> s[i].letter.from != a
  }

  lemma BlockSafe(k: K, a: Addr, frozen: bool)
    requires Safe(k) && k.q.cur.Some? && k.q.cur.value != SSI && a != Tcb(SSI)
    requires if frozen then a.Tcb? else NothingFrom(k.mail.inbox[k.q.cur.value], a)
    ensures Safe(Block(k, a, frozen))
  {
    PartitionMeans(k.q);
    ParkOk(k.q);
    PartitionMeans(Park(k.q));
  }

  lemma TakeSafe(k: K, i: nat, soft: nat)
    requires Safe(k) && k.q.cur.Some? && i < |k.mail.inbox[k.q.cur.value]|
    requires var s := k.mail.inbox[k.q.cur.value];
      forall j :: 0 <= j < i ==> s[j].letter.from != s[i].letter.from
    requires k.q.cur.value == SSI ==> k.ssi.pc != Got
    ensures Safe(k.(mail := Take(k.mail, k.q.cur.value, i), softBlock := soft))
  {
    var t := k.q.cur.value;
    var k' := k.(mail := Take(k.mail, t, i));
    PartitionMeans(k.q);
    TakePool(k.mail, t, i);
    forall x: Tid | Live(k.q, x) ensures DeliveryOk(k'.mail, x) {
      TakeDelivery(k.mail, t, i, x);
    }
  }

  /** `recv` of a thread other than the SSI. */
  lemma RecvSafe(k: K, from: Addr)
    requires Safe(k) && k.q.cur.Some? && k.q.cur.value != SSI && from != Tcb(SSI)
    ensures Safe(Recv(k, from))
  {
    var t := k.q.cur.value;
    var i := if from == Null then 0 else FirstFrom(k.mail.inbox[t], from);
    if i == |k.mail.inbox[t]| {
      BlockSafe(k, from, false);
    } else {
      TakeSafe(k, i, Recv(k, from).softBlock);
    }
  }

  lemma SsiReceiveSafe(k: K)
    requires Safe(k) && k.q.cur == Some(SSI) && k.ssi.pc == AtRecv
    ensures Safe(SsiReceive(k))
  {
    hide TreeOk, LetterOk;
    PartitionMeans(k.q);
    if k.mail.inbox[SSI] == [] {
      ParkOk(k.q);
      PartitionMeans(Park(k.q));
    } else {
      TakeSafe(k, 0, k.softBlock);
      assert LetterOk(k.written, k.mail.inbox[SSI][0].letter);
    }
  }

  // ----- terminate -----

  /** Everyone in the subtree of a live thread is alive, and the SSI is in no other thread's subtree. */
  lemma SubtreeAlive(k: K, t: Tid)
    requires Structure(k) && Live(k.q, t)
    ensures NoDup(PostOrder(k.tree, t))
    ensures forall x: Tid :: x in PostOrder(k.tree, t) ==> Live(k.q, x)
    ensures forall x: Tid :: x in PostOrder(k.tree, t) && k.tree.parent[x].None? ==> x == t
  {
    PostOrderNoDup(k.tree, t);
    PartitionMeans(k.q);
    forall x: Tid | x in PostOrder(k.tree, t) ensures Live(k.q, x) && (k.tree.parent[x].None? ==> x == t) {
      PostOrderMembers(k.tree, t, x);
    }
  }

  /** The cascade keeps both pools and the tree. */
  lemma KillStructure(k: K, t: Tid)
    requires Structure(k) && Live(k.q, t)
    ensures Structure(Kill(k, PostOrder(k.tree, t)))
  {
    var ds := PostOrder(k.tree, t);
    SubtreeAlive(k, t);
    SubtreeClosed(k.tree, t);
    PruneOk(k.tree, Elems(ds));
    ReapOk(k.q, ds);
    DiscardPool(k.mail, ds);
    KillCount(k, ds);
    forall x: Tid | x in Kill(k, ds).q.free ensures Dormant(Kill(k, ds), x) {
      KillDormant(k, ds, x);
    }
  }

  lemma KillDormant(k: K, ds: seq<Tid>, x: Tid)
    requires x in ds || Dormant(k, x)
    ensures Dormant(Kill(k, ds), x)
  {
    if x !in ds {
      MinusNone(k.tree.kids[x], Elems(ds));
    }
  }

  /** `thread_count` drops by the size of the subtree. */
  lemma KillCount(k: K, ds: seq<Tid>)
    requires k.threadCount == NT - |k.q.free| && Partition(k.q) && Partition(Reap(k.q, ds))
    ensures Kill(k, ds).threadCount == k.threadCount - |ds| == NT - |Kill(k, ds).q.free|
  {}

  /** Mail of the survivors is untouched. */
  lemma KillMail(k: K, ds: seq<Tid>)
    requires MailOk(k) && Partition(k.q) && Partition(Reap(k.q, ds))
    ensures MailOk(Kill(k, ds))
  {
    var k' := Kill(k, ds);
    PartitionMeans(k.q);
    PartitionMeans(k'.q);
    forall x: Tid | Live(k'.q, x) ensures x !in ds && Live(k.q, x) && DeliveryOk(k'.mail, x) {
      assert x in ds ==> x in k'.q.free;
    }
  }

  lemma KillSafe(k: K, t: Tid)
    requires Safe(k) && Live(k.q, t) && t != SSI
    ensures Safe(Kill(k, PostOrder(k.tree, t)))
    ensures SSI !in PostOrder(k.tree, t)
  {
    var ds := PostOrder(k.tree, t);
    KillStructure(k, t);
    SubtreeAlive(k, t);
    KillMail(k, ds);
    DismissKeeps(k.traps.managers, ds, Tcb(SSI));
  }

  lemma {:induction false} DismissKeeps(ms: seq<Addr>, ds: seq<Tid>, a: Addr)
    requires a !in ms && a != Null
    ensures a !in Dismiss(ms, ds)
  {
    if ds != [] {
      DismissKeeps(ms, ds[..|ds| - 1], a);
    }
  }

  lemma TerminateSafe(k: K, t: Tid)
    requires Safe(k) && t != SSI
    ensures Safe(Terminate(k, t))
  {
    if Live(k.q, t) {
      KillSafe(k, t);
    }
  }

  // ----- system calls and traps -----

  lemma ResumeSafe(k: K, r: Tid)
    requires Safe(k) && r in k.q.wait && r != SSI
    ensures Safe(Resume(k, r))
  {
    PartitionMeans(k.q);
    WakeOk(k.q, r);
    PartitionMeans(Wake(k.q, r));
    RemoveIsMinus(k.q.wait, r);
  }

  lemma DeliverSafe(k: K, t: Tid, target: Addr, body: Payload)
    requires Safe(k) && k.q.cur == Some(t) && !WakesFrozen(k, Alias(Tcb(t)), target)
    requires t == SSI ==> k.ssi.pc != Got
    requires target == Tcb(SSI) ==> LetterOk(k.written, Letter(Alias(Tcb(t)), body))
    ensures Safe(Deliver(k, t, target, body)) && Deliver(k, t, target, body).q.cur == k.q.cur
    ensures Deliver(k, t, target, body).ssi == k.ssi
  {
    hide Safe, Send, LetterOk;
    SendSafe(k, Tcb(t), target, body);
    Frames.SendKeeps(k, Tcb(t), target, body);
    ReturnSafe(Send(k, Tcb(t), target, body), t, SendResult(k, target));
  }

  /** A result in v0 disturbs nobody but an SSI that holds a message. */
  lemma ReturnSafe(k: K, t: Tid, v: Addr)
    requires Safe(k) && (t == SSI ==> k.ssi.pc != Got)
    ensures Safe(k.(mail := k.mail.(v0 := k.mail.v0[t := v])))
  {
    hide LetterOk;
  }

  /** MsgSend of a thread other than the SSI. */
  lemma MsgSendSafe(k: K, to: Addr, body: Payload)
    requires Safe(k) && k.q.cur.Some? && k.q.cur.value != SSI
    requires SendAllowed(k, k.q.cur.value, to, body)
    ensures Safe(MsgSend(k, to, body))
  {
    var t := k.q.cur.value;
    var a := Announce(k, to);
    if !Intercepted(a, t, Target(to), body) {
      DeliverSafe(a, t, Target(to), body);
    } else if body == TRAPTERMINATE {
      TerminateSafe(a, Target(to).t);
    } else {
      ResumeSafe(a, Target(to).t);
    }
  }

  lemma TrapSafe(k: K, kind: TrapKind, cause: nat)
    requires Safe(k) && k.q.cur.Some? && k.q.cur.value != SSI
    requires !WakesFrozen(k, Tcb(k.q.cur.value), ManagerOf(k, kind, k.q.cur.value))
    ensures Safe(Trap(k, kind, cause))
  {
    var t := k.q.cur.value;
    var m := ManagerOf(k, kind, t);
    assert ClientAddr(m);
    if m == Null {
      TerminateSafe(k, t);
    } else {
      SendSafe(k, Tcb(t), m, Word(cause));
      var k' := Send(k, Tcb(t), m, Word(cause));
      if k'.status == Running {
        BlockSafe(k', m, true);
      }
    }
  }

  // ----- the SSI's services -----

  lemma SettleSafe(k: K, out: seq<Reply>)
    requires Safe(k) && SSI !in k.q.wait
    requires forall i :: 0 <= i < |out| ==> out[i].to != SSI
    ensures Safe(Settle(k, out))
  {}

  lemma SpawnStructure(k: K, tree: Tree)
    requires Structure(k) && k.q.free != [] && TreeOk(tree)
    requires forall t: Tid :: t in k.q.free && t != k.q.free[0] ==> tree.parent[t] == None && tree.kids[t] == []
    ensures Structure(Spawn(k, tree, k.q.free[0]))
  {
    var n := k.q.free[0];
    var k' := Spawn(k, tree, n);
    assert n in k.q.free && Dormant(k, n);
    ClaimOk(k.q);
    PartitionMeans(k'.q);
    RenewPool(k.mail, n);
    forall t: Tid | t in k'.q.free ensures Dormant(k', t) {
      assert n in k'.q.ready && t in k.q.free && Dormant(k, t);
    }
  }

  lemma SpawnSafe(k: K, tree: Tree)
    requires Safe(k) && k.q.free != [] && k.q.cur == Some(SSI)
    requires TreeOk(tree)
    requires forall t: Tid :: t in k.q.free && t != k.q.free[0] ==> tree.parent[t] == None && tree.kids[t] == []
    requires tree.parent[SSI] == None && tree.kids[SSI] == []
    ensures Safe(Spawn(k, tree, k.q.free[0]))
  {
    var n := k.q.free[0];
    var k' := Spawn(k, tree, n);
    SpawnStructure(k, tree);
    assert n in k.q.free && Dormant(k, n);
    PartitionMeans(k.q);
    PartitionMeans(k'.q);
    forall t: Tid | Live(k'.q, t) ensures DeliveryOk(k'.mail, t) {
      RenewDelivery(k.mail, n, t);
    }
  }

  lemma BrotherSafe(k: K, x: Tid)
    requires Safe(k) && k.q.free != [] && k.q.cur == Some(SSI) && Live(k.q, x) && x != SSI
    ensures Safe(Brother(k, x)) && Brother(k, x).q.cur == Some(SSI)
  {
    hide Safe, Spawn, TreeOk;
    var n := k.q.free[0];
    var tr := Fresh(k.tree, n);
    var tree := if tr.parent[x].None? then Befriend(tr, x, n) else Adopt(tr, tr.parent[x].value, n);
    BrotherTree(k, x);
    SpawnSafe(k, tree);
    SpawnKeepsCur(k, tree);
    NotInWait(BrotherBorn(k, x));
    SettleSafe(BrotherBorn(k, x), [Reply(x, Ptr(Tcb(n)))]);
  }

  /** The tree with the new brother of x. */
  lemma BrotherTree(k: K, x: Tid)
    requires Safe(k) && k.q.free != [] && Live(k.q, x) && x != SSI
    ensures var n := k.q.free[0]; var tr := Fresh(k.tree, n);
      var tree := if tr.parent[x].None? then Befriend(tr, x, n) else Adopt(tr, tr.parent[x].value, n);
      && TreeOk(tree) && tree.parent[SSI] == None && tree.kids[SSI] == []
      && forall t: Tid :: t in k.q.free && t != n ==> tree.parent[t] == None && tree.kids[t] == []
  {
    hide MailOk, PoolOk, LetterOk, Partition;
    var n := k.q.free[0];
    PartitionMeans(k.q);
    assert n in k.q.free && Dormant(k, n);
    FreshOk(k.tree, n);
    var tr := Fresh(k.tree, n);
    if tr.parent[x].Some? {
      var p := tr.parent[x].value;
      assert x in k.tree.kids[p];
      AdoptOk(tr, p, n);
    }
  }

  lemma SonSafe(k: K, x: Tid)
    requires Safe(k) && k.q.free != [] && k.q.cur == Some(SSI) && Live(k.q, x) && x != SSI
    ensures Safe(Son(k, x)) && Son(k, x).q.cur == Some(SSI)
  {
    hide Safe;
    SonBornSafe(k, x);
    NotInWait(SonBorn(k, x));
    SettleSafe(SonBorn(k, x), [Reply(x, Ptr(Tcb(k.q.free[0])))]);
  }

  lemma SonBornSafe(k: K, x: Tid)
    requires Safe(k) && k.q.free != [] && k.q.cur == Some(SSI) && Live(k.q, x) && x != SSI
    ensures Safe(SonBorn(k, x)) && SonBorn(k, x).q.cur == Some(SSI)
  {
    hide DeliveryOk, PoolOk, LetterOk, Spawn, TicksFirst;
    var n := k.q.free[0];
    PartitionMeans(k.q);
    assert n in k.q.free && Dormant(k, n);
    FreshOk(k.tree, n);
    AdoptOk(Fresh(k.tree, n), x, n);
    var tree := Adopt(Fresh(k.tree, n), x, n);
    SpawnSafe(k, tree);
    InheritSafe(Spawn(k, tree, n), n, x);
    SpawnKeepsCur(k, tree);
  }

  lemma SpawnKeepsCur(k: K, tree: Tree)
    requires k.q.free != []
    ensures Spawn(k, tree, k.q.free[0]).q.cur == k.q.cur
  {}

  lemma InheritSafe(k: K, n: Tid, x: Tid)
    requires Safe(k)
    ensures Safe(k.(traps := k.traps.(sys := k.traps.sys[n := k.traps.sys[x]], pgm := k.traps.pgm[n := k.traps.pgm[x]],
                                      tlb := k.traps.tlb[n := k.traps.tlb[x]])))
  {
    hide DeliveryOk, PoolOk, TreeOk, LetterOk;
  }

  lemma SpecManagerSafe(k: K, kind: TrapKind, x: Tid, m: Addr)
    requires Safe(k) && k.q.cur == Some(SSI) && Live(k.q, x) && x != SSI
    ensures Safe(SpecManager(k, kind, x, m)) && SpecManager(k, kind, x, m).q.cur == Some(SSI)
  {
    hide Safe, Kill, Terminate, KernelSpec.SetManager;
    NotInWait(k);
    if ManagerOf(k, kind, x) != Null || !Queued(k.q, m) {
      KillSettled(k, x);
    } else {
      SetManagerSafe(k, kind, x, m);
      SettleSafe(SetManager(k, kind, x, m), [Reply(x, Word(0))]);
    }
  }

  lemma NotInWait(k: K)
    requires Safe(k) && k.q.cur == Some(SSI)
    ensures SSI !in k.q.wait && Aged(k.tree)
  {
    PartitionMeans(k.q);
  }

  lemma SetManagerSafe(k: K, kind: TrapKind, x: Tid, m: Addr)
    requires Safe(k) && k.q.cur == Some(SSI) && Queued(k.q, m)
    ensures Safe(SetManager(k, kind, x, m)) && SetManager(k, kind, x, m).q == k.q
  {
    hide DeliveryOk, PoolOk, TreeOk, LetterOk;
    PartitionMeans(k.q);
  }

  /** Any service for a thread that exists. */
  lemma ServiceSafe(k: K, x: Tid, service: nat, arg: Addr)
    requires Safe(k) && k.q.cur == Some(SSI) && Queued(k.q, Tcb(x))
    requires Creates(service) ==> k.q.free != []
    requires k.ssi.pc == Got
    ensures Safe(Service(k, x, service, arg))
    ensures Service(k, x, service, arg).q.cur == Some(SSI)
  {
    hide Safe, Brother, Son, Terminate, SpecManager, WaitForIo, WaitForClock, Partition;
    NotItself(k, x);
    if service == WAITFORCLOCK {
      ClockSafe(k, x);
    } else if service == CREATEBROTHER {
      BrotherSafe(k, x);
    } else if service == CREATESON {
      SonSafe(k, x);
    } else if service == TERMINATE {
      KillSettled(k, x);
    } else if service == SPECPRGMGR {
      SpecManagerSafe(k, PgmTrap, x, arg);
    } else if service == SPECTLBMGR {
      SpecManagerSafe(k, TlbTrap, x, arg);
    } else if service == SPECSYSMGR {
      SpecManagerSafe(k, SysBp, x, arg);
    } else if service == GETCPUTIME {
      SettleSafe(k, [Reply(x, Word(k.tm.cpuTime[x]))]);
    } else if service == WAITFORIO {
      WaitForIoSafe(k, x, arg);
    } else {
      SafeFrame(k, Panic(k));
    }
  }

  /** The SSI is on the CPU, so whoever is in a queue is somebody else. */
  lemma NotItself(k: K, x: Tid)
    requires Safe(k) && k.q.cur == Some(SSI) && Queued(k.q, Tcb(x))
    ensures x != SSI && SSI !in k.q.wait && Aged(k.tree)
  {
    PartitionMeans(k.q);
  }

  /** The handler's entry behind the interrupt message that the SSI is about to serve. */
  lemma HeldWritten(k: K) returns (n: nat)
    requires Safe(k) && Enabled(k, SsiServes) && HeldLetter(k).body.Irq?
    ensures n < |k.written| && k.written[n] == Some(HeldLetter(k)) && HeldLetter(k).body.at == n % SLOTS
  {
    n :| 0 <= n < |k.written| && k.written[n] == Some(HeldLetter(k));
  }

  /** What the SSI reads in a slot is what some entry of the handler wrote there. */
  lemma ReadIsWritten(k: K)
    requires Safe(k) && Enabled(k, SsiServes) && HeldLetter(k).body.Irq?
    ensures IrqOk(ReadLetter(k)) && ReadLetter(k).body.at < SLOTS
    ensures var ss := Slots.Contents(k.written); var w := Slots.Writer(ss, ReadLetter(k).body.at);
      w >= 0 && ss[w].value == Slots.Slot(ReadLetter(k).body.service, ReadLetter(k).body.status)
  {
    var n := HeldWritten(k);
    Slots.StillThere(Slots.Contents(k.written), n);
  }

  lemma ClockSafe(k: K, x: Tid)
    requires Safe(k) && k.q.cur == Some(SSI) && SSI !in k.q.wait && x != SSI
    ensures Safe(WaitForClock(k, x)) && WaitForClock(k, x).q.cur == Some(SSI)
  {}

  lemma SafeAged(k: K)
    requires Safe(k)
    ensures Aged(k.tree)
  {}

  lemma KillSettled(k: K, x: Tid)
    requires Safe(k) && k.q.cur == Some(SSI) && Live(k.q, x) && x != SSI
    ensures Safe(Settle(Terminate(k, x), []))
    ensures Terminate(k, x).q.cur == Some(SSI)
  {
    KillSafe(k, x);
    PartitionMeans(Kill(k, PostOrder(k.tree, x)).q);
    SettleSafe(Kill(k, PostOrder(k.tree, x)), []);
  }

  lemma WaitForIoSafe(k: K, x: Tid, dev: Addr)
    requires Safe(k) && k.q.cur == Some(SSI) && Live(k.q, x) && x != SSI
    ensures Safe(WaitForIo(k, x, dev)) && WaitForIo(k, x, dev).q.cur == Some(SSI)
  {
    PartitionMeans(k.q);
    if !dev.Raw? || Devices.RestIndex(dev.w) == -1 {
      KillSettled(k, x);
    }
  }

  lemma SsiServeSafe(k: K)
    requires Safe(k) && Enabled(k, SsiServes)
    ensures Safe(SsiServe(k)) && SsiServe(k).q.cur == Some(SSI)
  {
    hide Safe, Service, SetDevice, KernelSpec.Tick, Settle;
    NotInWait(k);
    var l := ReadLetter(k);
    if l.body.Irq? {
      if l.body.service == PSEUDOCLOCK_MSG {
        TickSafe(k);
      } else {
        StatusSafe(k, Devices.RestIndex(l.from.w), l.body.status);
      }
    } else if Queued(k.q, l.from) {
      NotItself(k, l.from.t);
      ServiceSafe(k, l.from.t, l.body.service, l.body.arg);
    } else {
      SettleSafe(k, []);
    }
    SettleKeepsCur(k);
  }

  lemma SettleKeepsCur(k: K)
    ensures Settle(k, []).q == k.q
  {}

  lemma TickSafe(k: K)
    requires Safe(k) && SSI !in k.q.wait
    ensures Safe(KernelSpec.Tick(k)) && KernelSpec.Tick(k).q == k.q
  {
    hide LetterOk, Partition, MailOk, PoolOk, TreeOk;
    KeepsMail(k, KernelSpec.Tick(k));
  }

  lemma StatusSafe(k: K, i: nat, status: nat)
    requires Safe(k) && SSI !in k.q.wait && i < DEVICES
    ensures Safe(SetDevice(k, i, Devices.OnInterrupt(k.ssi.dev[i], status)))
    ensures SetDevice(k, i, Devices.OnInterrupt(k.ssi.dev[i], status)).q == k.q
  {
    hide LetterOk, Partition, MailOk, PoolOk, TreeOk;
    KeepsMail(k, SetDevice(k, i, Devices.OnInterrupt(k.ssi.dev[i], status)));
  }

  /** The SSI's variables play no part in the mail of others. */
  lemma KeepsMail(k: K, k': K)
    requires MailOk(k) && k'.q == k.q && k'.mail == k.mail
    ensures MailOk(k')
  {}

  lemma SsiReplySafe(k: K)
    requires Safe(k) && k.q.cur == Some(SSI) && k.ssi.pc == Sending
    ensures Safe(SsiReply(k))
  {
    var r := k.ssi.outbox[0];
    PartitionMeans(k.q);
    DeliverSafe(k, SSI, Tcb(r.to), r.body);
    PartitionMeans(Deliver(k, SSI, Tcb(r.to), r.body).q);
  }

  // ----- interrupts and the scheduler -----

  /** The interrupt handler's messages always find the SSI alive. */
  lemma NotifySafe(k: K, from: Addr, service: nat, status: nat)
    requires Safe(k) && LetterOk(k.written + [Some(Report(k, from, service, status))], Report(k, from, service, status)) && !from.Tcb?
    requires status < U32
    ensures Safe(Notify(k, from, service, status)) && Notify(k, from, service, status).q.cur == k.q.cur
    ensures SendResult(k, Tcb(SSI)) == Null
  {
    var l := Report(k, from, service, status);
    assert IrqOk(l);
    hide Safe, Send, LetterOk;
    RecordSafe(k, Some(l));
    SsiThere(k);
    SendSafe(Record(k, Some(l)), from, Tcb(SSI), l.body);
  }

  lemma SsiThere(k: K)
    requires Safe(k)
    ensures Live(k.q, SSI) && !(SSI in k.q.wait && k.mail.frozen[SSI])
  {}

  /** One more entry of the interrupt handler leaves what earlier ones wrote as it was. */
  lemma RecordSafe(k: K, l: Option<Letter>)
    requires Safe(k)
    requires l.Some? ==> IrqOk(l.value) && l.value.body.at == |k.written| % SLOTS
    ensures Safe(Record(k, l))
  {
    hide Devices.RestIndex;
  }

  lemma PreemptSafe(k: K)
    requires Safe(k) && k.q.cur.Some?
    ensures Safe(k.(q := Preempt(k.q)))
  {
    PartitionMeans(k.q);
    ParkOk(k.q);
    PartitionMeans(Preempt(k.q));
  }

  lemma TimerSafe(k: K, clk: seq<nat>)
    requires Safe(k) && |clk| == 8
    ensures Safe(TimerInterrupt(k, clk))
  {
    hide Safe, Notify;
    var c := k.(tm := Timing.Count(k.tm, clk));
    SafeFrame(k, c);
    NotifySafe(c, Timer, PSEUDOCLOCK_MSG, 0);
    RecordSafe(c, None);
    var n := if Timing.TickDue(c.tm) then Notify(c, Timer, PSEUDOCLOCK_MSG, 0) else Record(c, None);
    if n.status == Running {
      var m := if Timing.TickDue(c.tm) then n.(tm := Timing.Restart(n.tm, clk)) else n;
      SafeFrame(n, m);
      if m.q.cur.Some? && m.tm.cpuSlice[m.q.cur.value] >= TIME_SLICE {
        PreemptSafe(m);
      } else {
        SafeFrame(m, m.(tm := Timing.SetTimer(m.tm)));
      }
    }
  }

  /** The clock, the soft-block counter and the run status play no part in safety. */
  lemma SafeFrame(k: K, k': K)
    requires Safe(k)
    requires k'.q == k.q && k'.tree == k.tree && k'.mail == k.mail && k'.traps == k.traps && k'.ssi == k.ssi
    requires k'.threadCount == k.threadCount && k'.written == k.written
    ensures Safe(k')
  {}

  lemma SchedulerSafe(k: K, clk: seq<nat>)
    requires Safe(k) && |clk| == 8
    ensures Safe(Scheduler(k, clk))
  {
    hide Safe, Dispatch;
    if k.status == Running && k.q.cur.None? && k.q.ready != [] {
      DispatchSafe(k);
      SafeFrame(k.(q := Dispatch(k.q)), Scheduler(k, clk));
    } else {
      SafeFrame(k, Scheduler(k, clk));
    }
  }

  lemma DispatchSafe(k: K)
    requires Safe(k) && k.q.cur.None? && k.q.ready != []
    ensures Safe(k.(q := Dispatch(k.q)))
  {
    PartitionMeans(k.q);
    DispatchOk(k.q);
    PartitionMeans(Dispatch(k.q));
    assert k.q.ready == [k.q.ready[0]] + k.q.ready[1..];
  }

  // ----- one step -----

  lemma DeviceSafe(k: K, line: nat, dev: nat, status: nat)
    requires Safe(k) && Devices.INT_LOWEST <= line < Devices.INT_TERMINAL && dev < 8 && status < U32
    ensures Safe(DeviceInterrupt(k, line, dev, status))
  {
    Devices.IndexOfRegister(line, dev);
    NotifySafe(k, Raw(Devices.RegisterAddr(line, dev)), INTERRUPT_MSG, status);
  }

  lemma TerminalSafe(k: K, dev: nat, trans: nat, recv: nat)
    requires Safe(k) && dev < 8 && trans < U32 && recv < U32
    ensures Safe(TerminalInterrupt(k, dev, trans, recv))
  {
    hide Safe, Notify;
    Devices.IndexOfRegister(Devices.INT_TERMINAL, dev);
    var base := Devices.RegisterAddr(Devices.INT_TERMINAL, dev);
    NotifySafe(k, Raw(base + 0x8), INTERRUPT_MSG, trans);
    NotifySafe(k, Raw(base), INTERRUPT_MSG, recv);
    RecordSafe(k, None);
  }

  lemma HandleSafe(k: K, e: Event, clk: seq<nat>)
    requires Safe(k) && |clk| == 8 && Enabled(k, e) && !e.SsiServes?
    ensures Safe(Handle(k, e, clk))
  {
    hide Safe, MsgSend, Recv, Trap, SsiReply, SsiReceive, TimerInterrupt, DeviceInterrupt, TerminalInterrupt;
    SafeAged(k);
    var k' := Enter(k, clk);
    SafeFrame(k, k');
    match e
    case SendCall(to, body) => MsgSendSafe(k', to, body);
    case RecvCall(from) => RecvSafe(k', from);
    case TrapRaised(kind, cause) => TrapSafe(k', kind, cause);
    case SsiCalls =>
      if k.ssi.pc == Sending { SsiReplySafe(k'); } else { SsiReceiveSafe(k'); }
    case TimerIrq => TimerSafe(k', clk);
    case DeviceIrq(line, dev, status) => DeviceSafe(k', line, dev, status);
    case TerminalIrq(dev, trans, recv) => TerminalSafe(k', dev, trans, recv);
    case NoLineIrq => RecordSafe(k', None);
  }

  lemma StepSafe(k: K, e: Event, clk: seq<nat>)
    requires Safe(k) && |clk| == 8 && Enabled(k, e)
    ensures Safe(Step(k, e, clk))
  {
    if e.SsiServes? {
      SsiServeSafe(k);
    } else {
      HandleSafe(k, e, clk);
      SchedulerSafe(Handle(k, e, clk), clk);
    }
  }

  lemma BootSafe(tod: nat)
    ensures Safe(Boot(tod))
  {
    var k := Boot(tod);
    BootPartition();
    BootPool();
    PartitionMeans(k.q);
    forall t: Tid ensures DeliveryOk(k.mail, t) {
      assert Letters([]) == [];
    }
  }

  lemma BootPartition()
    ensures Partition(BootQueues())
  {
    var q := BootQueues();
    assert NoDup(q.ready) && NoDup(q.free);
    forall t: Tid ensures Places(q, t) == 1 {
      CountNoDup(q.ready, t);
      CountNoDup(q.free, t);
      if t >= 2 { assert q.free[t - 2] == t; }
    }
  }

  lemma BootPool()
    ensures PoolOk(BootMail())
  {
    var m := BootMail();
    assert NoDup(m.free);
    forall i: Mid ensures multiset(m.free)[i] + Held(m.inbox, NT, i) == 1 {
      CountNoDup(m.free, i);
      assert m.free[i] == i;
      HeldNone(m.inbox, NT, i);
    }
  }

  lemma {:induction false} HeldNone(inbox: seq<seq<Msg>>, n: nat, i: Mid)
    requires n <= |inbox| && forall t :: 0 <= t < n ==> inbox[t] == []
    ensures Held(inbox, n, i) == 0
  {
    if n > 0 {
      HeldNone(inbox, n - 1, i);
      assert Ids([]) == [];
    }
  }
}
