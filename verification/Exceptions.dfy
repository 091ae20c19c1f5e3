/** Message passing and termination (phase2/src/exceptions.c) as they run on the linked lists. Each method
    is proved to do exactly what the transition function says: `k` is the abstract state, and `Valid` ties
    the lists, the control blocks and the globals to it. */
module Exceptions {
  import opened Types
  import opened Sequences
  import opened ProcessTree
  import opened ThreadQueues
  import opened Mailboxes
  import opened KernelSpec
  import opened Invariants
  import opened Listx
  import opened Store
  import opened Ties
  import opened Cascade
  import Frames

  class Nucleus {
    const pools: Pools
    var cur: Option<Tid>
    var threadCount: nat
    var softBlock: nat
    var managers: seq<Addr>
    var status: RunStatus
    ghost var k: K

    ghost predicate GlobalsTied()
      reads this
    {
      && cur == k.q.cur && threadCount == k.threadCount && softBlock == k.softBlock
      && managers == k.traps.managers && status == k.status
    }

    /** Valid, except for the sibling links of threads that are being terminated. */
    ghost predicate ValidBut(doomed: set<Tid>)
      reads this, pools, pools.links
    {
      && pools.Valid()
      && Laid(k, pools.Now(), doomed)
      && GlobalsTied()
    }

    ghost predicate Valid()
      reads this, pools, pools.links
    {
      ValidBut({})
    }

    /** `main`: both pools, both queues, and the SSI and TEST in ready_queue. */
    constructor (now: nat)
      ensures Valid() && fresh(pools) && fresh(pools.links)
      ensures k == Boot(now)
    {
      pools := new Pools();
      cur, threadCount, softBlock, status := None, 0, 0, Running;
      managers := seq(NT, _ => Null);
      k := Boot(now);
      new;
      Start(now);
    }

    method Start(now: nat)
      requires pools.Valid() && pools.tcb == ZeroTcbs() && pools.links.rings == Unbooted()
      requires k == Boot(now) && threadCount == 0 && cur == None && softBlock == 0 && status == Running
      requires managers == BootTraps().managers
      modifies this`threadCount, pools, pools.links
      ensures Valid()
    {
      hide Pools.Valid, Laid;
      pools.BootThreads();
      threadCount := threadCount + 1;   // SSI
      threadCount := threadCount + 1;   // TEST
      BootLaid(now, pools.Now());
    }

    // ----- send -----

    /** A message is allocated, filled in and queued; an empty pool is a panic. */
    method Queue(r: Tid, l: Letter)
      requires Valid() && Live(k.q, r)
      modifies this`k, this`status, pools`msg, pools.links
      ensures Valid()
      ensures k == if old(k).mail.free == [] then Panic(old(k)) else old(k).(mail := Enqueue(old(k).mail, r, l))
    {
      hide Pools.Valid, Laid;
      ghost var im := pools.Now();
      LaidMeans(k, im, {});
      var ok := pools.Post(r, l);
      if ok {
        QueueLaid(k, im, r, l, pools.Now());
        k := k.(mail := Enqueue(k.mail, r, l));
      } else {
        status := Panicked;
        LaidFrame(k, im, {}, Panic(k), pools.Now());
        k := Panic(k);
      }
    }

    /** A waiting thread gets the message directly and becomes ready. */
    method HandTo(r: Tid, l: Letter)
      requires Valid() && r in k.q.wait
      modifies this`k, pools`tcb, pools.links
      ensures Valid() && k == old(k).(q := Wake(old(k).q, r), mail := HandOver(old(k).mail, r, l))
    {
      hide Pools.Valid, Laid;
      ghost var im := pools.Now();
      LaidMeans(k, im, {});
      pools.WakeUp(r);
      pools.SetTcb(pools.tcb.(waitingFor := pools.tcb.waitingFor[r := Magic], v0 := pools.tcb.v0[r := l.from],
                              val := pools.tcb.val[r := l.body]));
      HandOverLaid(k, im, r, l, pools.Now());
      k := k.(q := Wake(k.q, r), mail := HandOver(k.mail, r, l));
    }

    /** `send`. The source decrements `soft_block_count` here when the aliased sender is the SSI's own
        address; the alias is never that address. */
    method Send(sender: Addr, target: Addr, body: Payload) returns (result: Addr)
      requires Valid()
      modifies this`k, this`status, pools, pools.links
      ensures Valid()
      ensures k == KernelSpec.Send(old(k), sender, target, body) && result == SendResult(old(k), target)
    {
      hide Pools.Valid, Laid;
      LaidMeans(k, pools.Now(), {});
      var s := if sender == Tcb(SSI) then Magic else sender;
      var ready := pools.ThereIsThread(Ready, target);
      if ready || (cur.Some? && target == Tcb(cur.value)) {
        Queue(target.t, Letter(s, body));
        return Null;
      }
      var waits := pools.ThereIsThread(Wait, target);
      if !waits { return Magic; }
      if pools.tcb.waitingFor[target.t] == s || pools.tcb.waitingFor[target.t] == Null {
        HandTo(target.t, Letter(s, body));
      } else {
        Queue(target.t, Letter(s, body));
      }
      return Null;
    }

    // ----- recv -----

    /** The current thread goes to wait_queue. */
    method BlockOn(a: Addr, frozen: bool)
      requires Valid() && cur.Some? && a != Tcb(SSI)
      modifies this`k, this`cur, pools`tcb, pools.links
      ensures Valid() && k == Block(old(k), a, frozen)
    {
      hide Pools.Valid, Laid, SibsKept, Loose;
      ghost var im := pools.Now();
      LaidMeans(k, im, {});
      CurrentLoose(k, im);
      var t := cur.value;
      pools.InsertThread(Wait, t);
      pools.SetTcb(pools.tcb.(waitingFor := pools.tcb.waitingFor[t := a],
                              v0 := if frozen then pools.tcb.v0 else pools.tcb.v0[t := Null]));
      cur := None;
      BlockLaid(k, im, a, frozen, pools.Now());
      k := Block(k, a, frozen);
    }

    /** `recv` */
    method Recv(from: Addr)
      requires Valid() && cur.Some? && from != Tcb(SSI)
      modifies this`k, this`cur, this`softBlock, pools`tcb, pools.links
      ensures Valid() && k == KernelSpec.Recv(old(k), from)
    {
      hide Pools.Valid, Laid, KernelSpec.Recv, Block;
      ghost var im := pools.Now();
      LaidMeans(k, im, {});
      var t := cur.value;
      var l, i := pools.Receive(t, from);
      assert Stopped(im.rings[Inbox(t)], im.msg, from, i);
      if l.None? {
        NothingReceived(k, im, from);
        BlockOn(from, false);
      } else {
        pools.SetTcb(pools.tcb.(v0 := pools.tcb.v0[t := l.value.from], val := pools.tcb.val[t := l.value.body]));
        if from == Magic {
          softBlock := Sub32(softBlock, 1);
        }
        ReceivedLaid(k, im, from, i, l.value, pools.Now());
        k := KernelSpec.Recv(k, from);
      }
    }

    // ----- terminate -----

    /** `outChild` of a thread that is about to die. */
    method Unlink(t: Tid, ghost doomed: set<Tid>)
      requires ValidBut(doomed + {t})
      modifies this`k, pools`tcb, pools.links
      ensures ValidBut(doomed + {t}) && k == old(k).(tree := Detach(old(k).tree, t))
      ensures old(pools.links.rings).Keys <= pools.links.rings.Keys
    {
      hide Pools.Valid, Laid;
      ghost var im := pools.Now();
      LaidMeans(k, im, doomed + {t});
      if pools.tcb.parent[t].Some? {
        ParentListed(k, im, doomed + {t}, t);
        pools.OutChild(t);
        DetachLaid(k, im, doomed + {t}, t, pools.Now());
        assert doomed + {t} + {t} == doomed + {t};
        k := k.(tree := Detach(k.tree, t));
      }
    }

    /** `removeChild` */
    method UnlinkChild(t: Tid, ghost doomed: set<Tid>) returns (c: Option<Tid>)
      requires ValidBut(doomed) && Child(t) in pools.links.rings
      modifies this`k, pools`tcb, pools.links
      ensures c == if old(k).tree.kids[t] == [] then None else Some(old(k).tree.kids[t][0])
      ensures c.None? ==> ValidBut(doomed) && k == old(k)
      ensures c.Some? ==> ValidBut(doomed + {c.value}) && k == old(k).(tree := Detach(old(k).tree, c.value))
      ensures c.Some? ==> Child(c.value) in pools.links.rings
      ensures old(pools.links.rings).Keys <= pools.links.rings.Keys
    {
      hide Pools.Valid, Laid;
      ghost var im := pools.Now();
      ChildrenListed(k, im, doomed, t);
      c := pools.RemoveChild(t);
      if c.Some? {
        DetachLaid(k, im, doomed, c.value, pools.Now());
        k := k.(tree := Detach(k.tree, c.value));
      }
    }

    /** `delete_manager` */
    method DeleteManager(t: Tid)
      modifies this`managers
      ensures managers == DismissOne(old(managers), t)
    {
      var i := 0;
      while i < |managers|
        invariant 0 <= i <= |managers| && managers == old(managers) && Tcb(t) !in managers[..i]
      {
        if managers[i] == Tcb(t) {
          FirstAt(managers, Tcb(t), i);
          managers := managers[i := Null];
          return;
        }
        i := i + 1;
      }
      assert managers[..i] == managers;
    }

    /** The globals after a death. */
    method Forget(t: Tid, waited: bool)
      requires threadCount > 0
      modifies this`softBlock, this`managers, this`cur, this`threadCount
      ensures softBlock == if waited && pools.tcb.waitingFor[t] == Tcb(SSI) then Sub32(old(softBlock), 1) else old(softBlock)
      ensures managers == DismissOne(old(managers), t) && cur == (if old(cur) == Some(t) then None else old(cur))
      ensures threadCount == old(threadCount) - 1
    {
      if waited && pools.tcb.waitingFor[t] == Tcb(SSI) {
        softBlock := Sub32(softBlock, 1);
      }
      DeleteManager(t);
      if cur == Some(t) {
        cur := None;
      }
      threadCount := threadCount - 1;
    }

    /** The end of `terminate`, for a thread without children. */
    method Release(t: Tid, ghost doomed: set<Tid>)
      requires ValidBut(doomed + {t}) && k.tree.parent[t] == None && k.tree.kids[t] == []
      modifies this, pools.links
      ensures ValidBut(doomed)
      ensures k == if Live(old(k).q, t) then Kill(old(k), [t]) else Panic(old(k))
      ensures old(pools.links.rings).Keys <= pools.links.rings.Keys
    {
      hide Pools.Valid, Laid, Kill, Gone, SibsKept, Loose;
      ghost var im := pools.Now();
      ReadyToRetire(k, im, doomed + {t}, t);
      var ok, waited := pools.Retire(t, cur == Some(t));
      if ok {
        RetireLaid(k, im, doomed, t, pools.Now());
        KillOne(k, t);
        Forget(t, waited);
        k := Kill(k, [t]);
      } else {
        NotRetiredLaid(k, im, doomed, t, pools.Now());
        status := Panicked;
        k := Panic(k);
      }
    }

    /** The loop of `terminate`. The recursion ends, whatever the tree, because children are younger than
        their parents. */
    method TerminateChildren(t: Tid, ghost doomed: set<Tid>)
      requires ValidBut(doomed + {t}) && Child(t) in pools.links.rings
      modifies this, pools, pools.links
      ensures ValidBut(doomed + {t}) && HalfWay(old(k), t, |old(k).tree.kids[t]|, k)
      ensures old(pools.links.rings).Keys <= pools.links.rings.Keys
      decreases k.tree.next - k.tree.birth[t], 0
    {
      hide Pools.Valid, Laid, HalfWay, KernelSpec.Terminate, Detach;
      ghost var k0, i := k, 0;
      LaidMeans(k, pools.Now(), doomed + {t});
      HalfWayStart(k0, t);
      while true
        invariant ValidBut(doomed + {t}) && Child(t) in pools.links.rings
        invariant HalfWay(k0, t, i, k) && i <= |k0.tree.kids[t]|
        invariant old(pools.links.rings).Keys <= pools.links.rings.Keys
        decreases |k0.tree.kids[t]| - i
      {
        HalfWayNext(k0, t, i, k, pools.Now(), doomed + {t});
        var c := UnlinkChild(t, doomed + {t});
        if c.None? { break; }
        Terminate(c.value, doomed + {t});
        i := i + 1;
      }
    }

    /** `terminate`: the thread leaves its parent, its children's subtrees die one by one, and it dies last. */
    method Terminate(t: Tid, ghost doomed: set<Tid>)
      requires ValidBut(doomed + {t}) && Child(t) in pools.links.rings
      modifies this, pools, pools.links
      ensures ValidBut(doomed) && k == KernelSpec.Terminate(old(k), t)
      ensures old(pools.links.rings).Keys <= pools.links.rings.Keys
      decreases k.tree.next - k.tree.birth[t], 1
    {
      hide Pools.Valid, Laid, HalfWay, KernelSpec.Terminate, Kill;
      ghost var k0, im := k, pools.Now();
      Unlink(t, doomed);
      TerminateChildren(t, doomed);
      TerminateEnd(k0, im, doomed + {t}, t, k);
      Release(t, doomed);
    }

    /** `terminate`, called for a thread that exists. */
    method TerminateThread(t: Tid)
      requires Valid() && Live(k.q, t)
      modifies this, pools, pools.links
      ensures Valid() && Aged(old(k).tree) && k == KernelSpec.Terminate(old(k), t)
    {
      hide Pools.Valid, Laid, KernelSpec.Terminate;
      LiveListed(k, pools.Now(), t);
      Terminate(t, {});
    }

    // ----- system calls and traps -----

    /** `thereIs_manager` */
    method ThereIsManager(t: Tid) returns (found: bool)
      ensures found == (Tcb(t) in managers)
    {
      var i := 0;
      while i < |managers|
        invariant 0 <= i <= |managers| && Tcb(t) !in managers[..i]
      {
        if managers[i] == Tcb(t) { return true; }
        i := i + 1;
      }
      assert managers[..i] == managers;
      return false;
    }

    /** `add_manager` */
    method AddManager(m: Addr)
      requires ValidBut({})
      modifies this`managers, this`k
      ensures Valid() && k == old(k).(traps := old(k).traps.(managers := Enlist(old(k).traps.managers, m)))
    {
      hide Pools.Valid, Laid;
      ghost var k1 := k.(traps := k.traps.(managers := Enlist(k.traps.managers, m)));
      LaidMeans(k, pools.Now(), {});
      LaidFrame(k, pools.Now(), {}, k1, pools.Now());
      var i := 0;
      while i < |managers|
        invariant 0 <= i <= |managers| && managers == old(managers) && k == old(k)
        invariant forall j :: 0 <= j < i ==> managers[j] != m && managers[j] != Null
      {
        if managers[i] == m || managers[i] == Null {
          managers := managers[i := m];
          k := k1;
          return;
        }
        i := i + 1;
      }
      k := k1;
    }

    /** The MsgSend handler notes a thread that is about to wait for a service. */
    method NoteRequest(to: Addr)
      requires Valid()
      modifies this`k, this`softBlock
      ensures Valid() && k == Announce(old(k), to)
    {
      hide Pools.Valid, Laid;
      ghost var k1 := Announce(k, to);
      LaidMeans(k, pools.Now(), {});
      LaidFrame(k, pools.Now(), {}, k1, pools.Now());
      if to == Magic {
        softBlock := Add32(softBlock, 1);
      }
      k := k1;
    }

    /** TRAPCONTINUE: a frozen thread becomes ready. */
    method Continue(r: Tid)
      requires Valid() && r in k.q.wait
      modifies this`k, pools.links
      ensures Valid() && k == Resume(old(k), r)
    {
      hide Pools.Valid, Laid;
      ghost var im := pools.Now();
      LaidMeans(k, im, {});
      pools.WakeUp(r);
      ResumeLaid(k, im, r, pools.Now());
      k := Resume(k, r);
    }

    /** The result of a system call. */
    method Return(t: Tid, v: Addr)
      requires Valid()
      modifies this`k, pools`tcb
      ensures Valid() && k == old(k).(mail := old(k).mail.(v0 := old(k).mail.v0[t := v]))
    {
      hide Pools.Valid, Laid;
      ghost var im, k1 := pools.Now(), k.(mail := k.mail.(v0 := k.mail.v0[t := v]));
      LaidMeans(k, im, {});
      pools.SetTcb(pools.tcb.(v0 := pools.tcb.v0[t := v]));
      LaidFrame(k, im, {}, k1, pools.Now());
      k := k1;
    }

    /** `send` on behalf of the current thread, with its result in v0. */
    method Deliver(t: Tid, target: Addr, body: Payload)
      requires Valid()
      modifies this`k, this`status, pools, pools.links
      ensures Valid() && k == KernelSpec.Deliver(old(k), t, target, body)
    {
      hide Pools.Valid, Laid, KernelSpec.Send, SendResult;
      var result := Send(Tcb(t), target, body);
      if status == Running {
        Return(t, result);
      }
    }

    /** MsgSend: a trap manager's answer is carried out, anything else is sent. */
    method MsgSend(to: Addr, body: Payload)
      requires Valid() && cur.Some?
      requires Intercepted(k, cur.value, Target(to), body) && body == TRAPCONTINUE ==> Target(to).t in k.q.wait
      modifies this, pools, pools.links
      ensures Valid() && Aged(old(k).tree) && k == KernelSpec.MsgSend(old(k), to, body)
    {
      hide Pools.Valid, Laid, KernelSpec.Deliver, KernelSpec.Terminate, Resume;
      var t := cur.value;
      LaidMeans(k, pools.Now(), {});
      NoteRequest(to);
      LaidMeans(k, pools.Now(), {});
      var receiver := if to == Magic then Tcb(SSI) else to;
      var manager := ThereIsManager(t);
      if manager && receiver.Tcb? && pools.tcb.waitingFor[receiver.t] == Tcb(t) {
        if body == TRAPTERMINATE {
          Awaiting(k, pools.Now(), receiver.t);
          Terminate(receiver.t, {});
          return;
        }
        if body == TRAPCONTINUE {
          Continue(receiver.t);
          return;
        }
      }
      Deliver(t, receiver, body);
    }

    /** A trap: without a manager the subtree dies, with one the thread is reported and frozen. */
    method RaiseTrap(kind: TrapKind, cause: nat)
      requires Valid() && cur.Some? && ManagerOf(k, kind, cur.value) != Tcb(SSI)
      modifies this, pools, pools.links
      ensures Valid() && Aged(old(k).tree) && k == KernelSpec.Trap(old(k), kind, cause)
    {
      hide Pools.Valid, Laid, KernelSpec.Send, KernelSpec.Terminate, Block;
      var t := cur.value;
      LaidMeans(k, pools.Now(), {});
      var m := Manager(kind, t);
      if m == Null {
        TerminateThread(t);
      } else {
        Frames.SendKeeps(k, Tcb(t), m, Word(cause));
        var _ := Send(Tcb(t), m, Word(cause));
        if status == Running {
          BlockOn(m, true);
        }
      }
    }

    // ----- creation and trap managers, for the SSI -----

    /** The search in both queues: a thread that is in one of them exists. */
    method Exists(a: Addr) returns (found: bool)
      requires Valid()
      ensures found == Queued(k.q, a)
    {
      hide Pools.Valid, Laid;
      LaidMeans(k, pools.Now(), {});
      found := pools.ThereIsThread(Ready, a);
      if !found {
        found := pools.ThereIsThread(Wait, a);
      }
    }

    /** A new child of p, in ready_queue. */
    method BearChild(p: Tid) returns (n: Tid)
      requires Valid() && Live(k.q, p) && k.q.free != []
      modifies this`k, this`threadCount, pools`tcb, pools.links
      ensures Valid() && n == old(k).q.free[0]
      ensures k == Spawn(old(k), Adopt(Fresh(old(k).tree, n), p, n), n)
    {
      hide Pools.Valid, Laid;
      ghost var im := pools.Now();
      LaidMeans(k, im, {});
      FreeFacts(k, im);
      n := pools.SpawnChild(p);
      threadCount := Add32(threadCount, 1);
      ChildLaid(k, im, p, pools.Now());
      k := Spawn(k, Adopt(Fresh(k.tree, n), p, n), n);
    }

    /** A new thread next to the parentless x, in ready_queue. */
    method BearSibling(x: Tid) returns (n: Tid)
      requires Valid() && Live(k.q, x) && k.q.free != [] && k.tree.parent[x].None? && BrotherAllowed(k, x)
      modifies this`k, this`threadCount, pools`tcb, pools.links
      ensures Valid() && n == old(k).q.free[0]
      ensures k == Spawn(old(k), Befriend(Fresh(old(k).tree, n), x, n), n)
    {
      hide Pools.Valid, Laid;
      ghost var im := pools.Now();
      LaidMeans(k, im, {});
      FreeFacts(k, im);
      SiblingReady(k, im, x);
      n := pools.SpawnSibling(x);
      threadCount := Add32(threadCount, 1);
      SiblingLaid(k, im, x, pools.Now());
      k := Spawn(k, Befriend(Fresh(k.tree, n), x, n), n);
    }

    /** CREATEBROTHER */
    method CreateBrother(x: Tid) returns (n: Tid)
      requires Valid() && Live(k.q, x) && k.q.free != [] && BrotherAllowed(k, x)
      modifies this`k, this`threadCount, pools`tcb, pools.links
      ensures Valid() && n == old(k).q.free[0] && k == BrotherBorn(old(k), x)
    {
      hide Pools.Valid, Laid, Spawn;
      ghost var im := pools.Now();
      LaidMeans(k, im, {});
      FreeFacts(k, im);
      if pools.tcb.parent[x].None? {
        n := BearSibling(x);
      } else {
        ParentAlive(k, im, x);
        n := BearChild(pools.tcb.parent[x].value);
      }
    }

    /** CREATESON: the son inherits the trap managers. */
    method CreateSon(x: Tid) returns (n: Tid)
      requires Valid() && Live(k.q, x) && k.q.free != []
      modifies this`k, this`threadCount, pools`tcb, pools.links
      ensures Valid() && n == old(k).q.free[0] && k == SonBorn(old(k), x)
    {
      hide Pools.Valid, Laid;
      ghost var k0 := k;
      n := BearChild(x);
      ghost var im := pools.Now();
      LaidMeans(k, im, {});
      pools.SetTcb(pools.tcb.(sys := pools.tcb.sys[n := pools.tcb.sys[x]], pgm := pools.tcb.pgm[n := pools.tcb.pgm[x]],
                              tlb := pools.tcb.tlb[n := pools.tcb.tlb[x]]));
      LaidFrame(k, im, {}, SonBorn(k0, x), pools.Now());
      k := SonBorn(k0, x);
    }

    /** A trap manager is entered in the array and in the thread. */
    method SetManager(kind: TrapKind, x: Tid, m: Addr)
      requires Valid()
      modifies this`k, this`managers, pools`tcb
      ensures Valid() && k == KernelSpec.SetManager(old(k), kind, x, m)
    {
      hide Pools.Valid, Laid;
      ghost var k0 := k;
      AddManager(m);
      ghost var im := pools.Now();
      LaidMeans(k, im, {});
      match kind {
        case SysBp => pools.SetTcb(pools.tcb.(sys := pools.tcb.sys[x := m]));
        case PgmTrap => pools.SetTcb(pools.tcb.(pgm := pools.tcb.pgm[x := m]));
        case TlbTrap => pools.SetTcb(pools.tcb.(tlb := pools.tcb.tlb[x := m]));
      }
      LaidFrame(k, im, {}, KernelSpec.SetManager(k0, kind, x, m), pools.Now());
      k := KernelSpec.SetManager(k0, kind, x, m);
    }

    // ----- the CPU -----

    /** emptyThreadQ */
    method NobodyReady() returns (b: bool)
      requires Valid()
      ensures b == (k.q.ready == [])
    {
      hide Pools.Valid, Laid;
      LaidMeans(k, pools.Now(), {});
      b := pools.NoneIn(Ready);
    }

    /** removeThread of ready_queue, as current_thread. */
    method Dispatch()
      requires Valid() && cur.None? && k.q.ready != []
      modifies this`k, this`cur, pools.links
      ensures Valid() && k == old(k).(q := ThreadQueues.Dispatch(old(k).q))
    {
      hide Pools.Valid, Laid;
      ghost var im := pools.Now();
      LaidMeans(k, im, {});
      cur := pools.RemoveThread(Ready);
      DispatchLaid(k, im, pools.Now());
      k := k.(q := ThreadQueues.Dispatch(k.q));
    }

    /** insertThread of current_thread in ready_queue. */
    method Preempt()
      requires Valid() && cur.Some?
      modifies this`k, this`cur, pools.links
      ensures Valid() && k == old(k).(q := ThreadQueues.Preempt(old(k).q))
    {
      hide Pools.Valid, Laid;
      ghost var im := pools.Now();
      LaidMeans(k, im, {});
      CurrentLoose(k, im);
      pools.InsertThread(Ready, cur.value);
      cur := None;
      PreemptLaid(k, im, pools.Now());
      k := k.(q := ThreadQueues.Preempt(k.q));
    }

    /** What the real fields say about the abstract state. */
    lemma Globals()
      requires Valid()
      ensures GlobalsTied() && k.threadCount == NT - |k.q.free| && Aged(k.tree)
    {
      LaidMeans(k, pools.Now(), {});
    }

    /** `cpu_slice` and `cpu_time` of a thread. */
    method Times(t: Tid) returns (slice: nat, time: nat)
      requires Valid()
      ensures slice == k.tm.cpuSlice[t] && time == k.tm.cpuTime[t]
    {
      LaidMeans(k, pools.Now(), {});
      return pools.tcb.cpuSlice[t], pools.tcb.cpuTime[t];
    }

    /** What the thread's last MsgRecv returned. */
    method Received(t: Tid) returns (l: Letter)
      requires Valid()
      ensures l == Letter(k.mail.v0[t], k.mail.val[t])
    {
      LaidMeans(k, pools.Now(), {});
      return Letter(pools.tcb.v0[t], pools.tcb.val[t]);
    }

    /** A thread's trap manager. */
    method Manager(kind: TrapKind, t: Tid) returns (m: Addr)
      requires Valid()
      ensures m == ManagerOf(k, kind, t)
    {
      LaidMeans(k, pools.Now(), {});
      match kind
      case SysBp => m := pools.tcb.sys[t];
      case PgmTrap => m := pools.tcb.pgm[t];
      case TlbTrap => m := pools.tcb.tlb[t];
    }

    /** Stores into `cpu_slice` and `cpu_time` of a thread; tm is what they stand for. */
    method SetTimes(t: Tid, slice: nat, time: nat, ghost tm: Time)
      requires Valid() && tm.cpuSlice == k.tm.cpuSlice[t := slice] && tm.cpuTime == k.tm.cpuTime[t := time]
      modifies this`k, pools`tcb
      ensures Valid() && k == old(k).(tm := tm)
    {
      hide Pools.Valid, Laid;
      ghost var im := pools.Now();
      LaidMeans(k, im, {});
      pools.SetTcb(pools.tcb.(cpuSlice := pools.tcb.cpuSlice[t := slice], cpuTime := pools.tcb.cpuTime[t := time]));
      LaidFrame(k, im, {}, k.(tm := tm), pools.Now());
      k := k.(tm := tm);
    }

    /** What the nucleus does not hold itself: the SSI's tables and the time registers. */
    ghost method Note(ssi: Ssi, tm: Time)
      requires Valid() && tm.cpuSlice == k.tm.cpuSlice && tm.cpuTime == k.tm.cpuTime
      modifies this`k
      ensures Valid() && k == old(k).(ssi := ssi, tm := tm)
    {
      hide Pools.Valid, Laid;
      LaidMeans(k, pools.Now(), {});
      LaidFrame(k, pools.Now(), {}, k.(ssi := ssi, tm := tm), pools.Now());
      k := k.(ssi := ssi, tm := tm);
    }

    /** An entry of the interrupt handler, with what it wrote for the SSI. */
    ghost method Record(l: Option<Letter>)
      requires Valid()
      modifies this`k
      ensures Valid() && k == KernelSpec.Record(old(k), l)
    {
      hide Pools.Valid, Laid;
      LaidMeans(k, pools.Now(), {});
      LaidFrame(k, pools.Now(), {}, KernelSpec.Record(k, l), pools.Now());
      k := KernelSpec.Record(k, l);
    }

    /** HALT and PANIC */
    method Stop(s: RunStatus)
      requires Valid()
      modifies this`k, this`status
      ensures Valid() && k == old(k).(status := s)
    {
      hide Pools.Valid, Laid;
      LaidMeans(k, pools.Now(), {});
      LaidFrame(k, pools.Now(), {}, k.(status := s), pools.Now());
      status := s;
      k := k.(status := s);
    }
  }

  // ----- facts about layouts -----

  /** A parentless thread and the owner of the node before its `t_sib` are in no child list. */
  lemma SiblingReady(k: K, im: Image, x: Tid)
    requires Laid(k, im, {}) && Live(k.q, x) && k.tree.parent[x].None? && BrotherAllowed(k, x)
    ensures L(TSib, x) in im.prev && im.prev[L(TSib, x)] == L(TSib, k.tree.kin[x])
    ensures Loose(im.rings, L(TSib, x)) && Loose(im.rings, im.prev[L(TSib, x)])
  {
    LooseSib(k, im.rings, x);
    LooseSib(k, im.rings, k.tree.kin[x]);
  }

  lemma ParentAlive(k: K, im: Image, x: Tid)
    requires Laid(k, im, {}) && k.tree.parent[x].Some?
    ensures Live(k.q, k.tree.parent[x].value)
  {
    PartitionMeans(k.q);
    assert x in k.tree.kids[k.tree.parent[x].value];
  }

  lemma Awaiting(k: K, im: Image, t: Tid)
    requires Laid(k, im, {}) && k.mail.waitingFor[t].Tcb?
    ensures Child(t) in im.rings && Laid(k, im, {} + {t})
  {}

  lemma LiveListed(k: K, im: Image, t: Tid)
    requires Laid(k, im, {}) && Live(k.q, t)
    ensures Child(t) in im.rings && Laid(k, im, {} + {t}) && Aged(k.tree)
  {}

  lemma BootLaid(now: nat, im: Image)
    requires im.rings == Booted() && im.tcb == ResetTcb(ResetTcb(ZeroTcbs(), 0), 1)
    requires forall t: Tid :: t < 2 ==> L(TSib, t) in im.prev && im.prev[L(TSib, t)] == L(TSib, t)
    ensures Laid(Boot(now), im, {})
  {
    BootTied(now, im.rings, im.prev, im.msg);
    BootSafe(now);
  }

  lemma BootTied(now: nat, rings: Rings, prev: Memory, msg: MsgArray)
    requires rings == Booted()
    requires forall t: Tid :: t < 2 ==> L(TSib, t) in prev && prev[L(TSib, t)] == L(TSib, t)
    ensures Tied(Boot(now), rings, prev, ResetTcb(ResetTcb(ZeroTcbs(), 0), 1), msg)
  {
    hide KnownHeads, QueuesTied, TreeTied, MailTied, FieldsTied;
    BootLists(now, rings);
    BootMailTied(now, rings);
    BootFields(now);
  }

  lemma BootLists(now: nat, rings: Rings)
    requires rings == Booted()
    ensures KnownHeads(rings) && QueuesTied(BootQueues(), rings) && TreeTied(BootQueues(), BootTree(), rings)
  {
    assert UpTo(NT)[1..][1..] == BootQueues().free;
  }

  lemma BootMailTied(now: nat, rings: Rings)
    requires rings == Booted()
    ensures MailTied(BootQueues(), BootMail(), rings)
  {
    assert Ids([]) == [];
    assert UpTo(NM) == BootMail().free;
  }

  lemma BootFields(now: nat)
    ensures FieldsTied(Boot(now), ResetTcb(ResetTcb(ZeroTcbs(), 0), 1))
  {}

  lemma CurrentLoose(k: K, im: Image)
    requires Laid(k, im, {}) && k.q.cur.Some?
    ensures Loose(im.rings, L(TNext, k.q.cur.value))
  {
    PartitionMeans(k.q);
    LooseThread(k, im.rings, k.q.cur.value);
  }

  lemma ParentListed(k: K, im: Image, doomed: set<Tid>, t: Tid)
    requires Laid(k, im, doomed) && k.tree.parent[t].Some?
    ensures var h := Child(k.tree.parent[t].value); h in im.rings && t in im.rings[h] && Live(k.q, t)
  {
    var p := k.tree.parent[t].value;
    assert t in k.tree.kids[p];
    PartitionMeans(k.q);
  }

  lemma ChildrenListed(k: K, im: Image, doomed: set<Tid>, t: Tid)
    requires Laid(k, im, doomed) && Child(t) in im.rings
    ensures im.rings[Child(t)] == k.tree.kids[t]
    ensures k.tree.kids[t] != [] ==> var c := k.tree.kids[t][0];
      && k.tree.parent[c] == Some(t) && Live(k.q, c) && Child(c) in im.rings
      && Remove<nat>(im.rings[Child(t)], c) == im.rings[Child(t)][1..]
  {
    if k.tree.kids[t] != [] {
      var c := k.tree.kids[t][0];
      assert c in k.tree.kids[t];
      PartitionMeans(k.q);
      assert IndexOf<nat>(im.rings[Child(t)], c) == 0;
    }
  }

  lemma ReadyToRetire(k: K, im: Image, doomed: set<Tid>, t: Tid)
    requires Laid(k, im, doomed)
    ensures Ready in im.rings && Wait in im.rings
    ensures Live(k.q, t) <==> k.q.cur == Some(t) || t in im.rings[Ready] || t in im.rings[Wait]
    ensures Live(k.q, t) ==> Inbox(t) in im.rings
    ensures t in im.rings[Ready] ==> t !in im.rings[Wait]
    ensures k.q.cur == Some(t) ==> t !in im.rings[Ready] && t !in im.rings[Wait] && Loose(im.rings, L(TNext, t))
    ensures im.tcb.waitingFor[t] != Tcb(SSI)
    ensures Live(k.q, t) ==> k.threadCount > 0
  {
    PartitionMeans(k.q);
    if k.q.cur == Some(t) {
      LooseThread(k, im.rings, t);
    }
  }

  /** What one death does to the globals. */
  lemma KillOne(k: K, t: Tid)
    ensures var k' := Kill(k, [t]);
      && k'.q.cur == (if k.q.cur == Some(t) then None else k.q.cur)
      && k'.traps.managers == DismissOne(k.traps.managers, t)
      && k'.softBlock == k.softBlock && k'.status == k.status
  {
    assert [t][..0] == [];
    assert Dismiss(k.traps.managers, [t]) == DismissOne(Dismiss(k.traps.managers, []), t);
  }

  /** Before each turn of the loop: either all children are dead, or the first one left is the next. */
  lemma HalfWayNext(k0: K, t: Tid, i: nat, k: K, im: Image, doomed: set<Tid>)
    requires HalfWay(k0, t, i, k) && Laid(k, im, doomed)
    ensures if k.tree.kids[t] == [] then i == |k0.tree.kids[t]| else i < |k0.tree.kids[t]|
    ensures k.tree.kids[t] != [] ==>
      var c := k.tree.kids[t][0]; var d := k.(tree := Detach(k.tree, c));
      && d.tree.next - d.tree.birth[c] < k0.tree.next - k0.tree.birth[t]
      && Aged(d.tree) && HalfWay(k0, t, i + 1, KernelSpec.Terminate(d, c))
  {
    hide HalfWay, Kill, Laid, TreeOk;
    HalfWayKids(k0, t, i, k);
    if k.tree.kids[t] != [] {
      var c := k.tree.kids[t][0];
      assert c == k0.tree.kids[t][i];
      ChildAlive(k, im, doomed, t);
      ChildYounger(k0.tree, t, i);
      HalfWayStep(k0, t, i, k);
    }
  }

  lemma ChildAlive(k: K, im: Image, doomed: set<Tid>, t: Tid)
    requires Laid(k, im, doomed) && k.tree.kids[t] != []
    ensures Live(k.q, k.tree.kids[t][0]) && TreeOk(k.tree)
  {
    assert k.tree.kids[t][0] in k.tree.kids[t];
    PartitionMeans(k.q);
  }

  lemma ChildYounger(tr: Tree, t: Tid, i: nat)
    requires TreeOk(tr) && i < |tr.kids[t]|
    ensures tr.birth[t] < tr.birth[tr.kids[t][i]] < tr.next
  {
    assert tr.kids[t][i] in tr.kids[t];
  }

  /** With all children dead, the thread itself is what is left to free. */
  lemma TerminateEnd(k0: K, im: Image, doomed: set<Tid>, t: Tid, k: K)
    requires Laid(k0, im, doomed)
    requires var k1 := k0.(tree := Detach(k0.tree, t)); HalfWay(k1, t, |k1.tree.kids[t]|, k)
    ensures Aged(k0.tree) && k.tree.parent[t] == None && k.tree.kids[t] == []
    ensures KernelSpec.Terminate(k0, t) == if Live(k.q, t) then Kill(k, [t]) else Panic(k)
  {
    hide Kill, HalfWay, Partition, Detach, PostOrder, Structure, Laid;
    var k1 := k0.(tree := Detach(k0.tree, t));
    LaidStructure(k0, im, doomed);
    DetachStructure(k0, t);
    HalfWayKids(k1, t, |k1.tree.kids[t]|, k);
    HalfWayEnd(k1, t, k);
    if Live(k0.q, t) {
      DetachedOrder(k0.tree, t);
      KillDetach(k0, t, PostOrder(k0.tree, t));
    } else {
      DeadAlready(k0, t, k);
    }
  }

  lemma LaidStructure(k: K, im: Image, doomed: set<Tid>)
    requires Laid(k, im, doomed)
    ensures Structure(k) && TreeOk(k.tree) && Aged(k.tree)
  {}

  lemma DetachStructure(k: K, t: Tid)
    requires TreeOk(k.tree)
    ensures var k1 := k.(tree := Detach(k.tree, t)); TreeOk(k1.tree) && k1.tree.parent[t] == None
  {
    DetachOk(k.tree, t);
  }

  /** A thread that is in no queue has no children either, so nothing was done for it. */
  lemma DeadAlready(k0: K, t: Tid, k: K)
    requires Structure(k0) && !Live(k0.q, t)
    requires var k1 := k0.(tree := Detach(k0.tree, t)); HalfWay(k1, t, |k1.tree.kids[t]|, k)
    ensures k == k0 && k.tree.parent[t] == None && k.tree.kids[t] == []
  {
    var k1 := k0.(tree := Detach(k0.tree, t));
    PartitionMeans(k0.q);
    assert Dormant(k0, t);
    assert k1.tree.kids[t][..0] == [];
    KillNobody(k1);
  }

  lemma DetachedOrder(tr: Tree, t: Tid)
    requires TreeOk(tr)
    ensures Aged(Detach(tr, t)) && PostOrder(Detach(tr, t), t) == PostOrder(tr, t) && t in PostOrder(tr, t)
  {
    DetachOk(tr, t);
    PostOrderMembers(tr, t, t);
    forall x | x in PostOrder(tr, t) ensures Detach(tr, t).kids[x] == tr.kids[x] {
      PostOrderMembers(tr, t, x);
      UnderAge(tr, x, t);
      MinusNone(tr.kids[x], {t});
    }
    PostOrderFrame(tr, Detach(tr, t), t);
  }

  lemma FirstAt<T(!new)>(s: seq<T>, x: T, i: nat)
    requires i < |s| && s[i] == x && x !in s[..i]
    ensures IndexOf(s, x) == i
  {
    assert s[i] !in s[..IndexOf(s, x)];
  }
}
