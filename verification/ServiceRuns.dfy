/** What the SSI's services bring about in a run: where a new thread stands, which manager is set, who dies. */
module ServiceRuns {
  import opened Types
  import opened Sequences
  import opened ProcessTree
  import opened ThreadQueues
  import opened Mailboxes
  import opened KernelSpec
  import opened Invariants
  import opened Runs
  import opened SsiRuns
  import opened Theorems
  import opened Fairness
  import opened Effects
  import Devices
  import Frames
  import Slots

  /** Step i serves this request of thread x. */
  predicate Requests(r: Run, i: nat, x: Tid, service: nat, arg: Addr) {
    && i < |r.events| && i < |r.states| && r.events[i].SsiServes?
    && HeldLetter(r.states[i]) == Letter(Tcb(x), Req(service, arg)) && Queued(r.states[i].q, Tcb(x))
  }

  lemma RequestServed(r: Run, i: nat, x: Tid, service: nat, arg: Addr)
    requires IsRun(r) && Requests(r, i, x, service, arg)
    ensures var k := r.states[i];
      && Safe(k) && k.status == Running && k.q.cur == Some(SSI) && Live(k.q, x) && x != SSI && Aged(k.tree)
      && (Creates(service) ==> k.q.free != []) && r.states[i + 1] == Service(k, x, service, arg)
  {
    hide Step, Safe, Enabled, Service;
    RanBefore(r, i);
    var k := r.states[i];
    IsService(k, r.clocks[i], x, service, arg);
    NotItself(k, x);
  }

  lemma IsService(k: K, clk: seq<nat>, x: Tid, service: nat, arg: Addr)
    requires Aged(k.tree) && Enabled(k, SsiServes) && HeldLetter(k) == Letter(Tcb(x), Req(service, arg)) && Queued(k.q, Tcb(x))
    requires |clk| == 8
    ensures k.q.cur == Some(SSI) && (Creates(service) ==> k.q.free != [])
    ensures Step(k, SsiServes, clk) == Service(k, x, service, arg)
  {
    hide Service, ReadLetter;
  }

  // ----- creation -----

  /** n has left the head of the free list for the end of ready_queue, as the last child of p if there is one; it has no
      messages, x is told its address, and nobody else has changed. */
  ghost predicate Born(k: K, k': K, n: Tid, x: Tid, p: Option<Tid>) {
    && k.q.free == [n] + k'.q.free && k'.q.ready == k.q.ready + [n] && k'.q.wait == k.q.wait && k'.q.cur == k.q.cur
    && k'.threadCount == k.threadCount + 1
    && k'.tree.parent == k.tree.parent[n := p]
    && k'.tree.kids == (if p.None? then k.tree.kids else k.tree.kids[p.value := k.tree.kids[p.value] + [n]])
    && k'.ssi.outbox == [Reply(x, Ptr(Tcb(n)))]
    && k'.mail.inbox[n] == [] && k'.mail.waitingFor[n] == Magic && !k'.mail.frozen[n] && k'.mail.v0[n] == Null
    && k'.mail.log[n] == [] && k'.mail.got[n] == []
    && k'.traps.managers == k.traps.managers
    && forall y: Tid :: y != n ==> SameThread(k, k', y)
  }

  /** The messages and the managers of y are as they were. */
  ghost predicate SameThread(k: K, k': K, y: Tid) {
    && k'.mail.inbox[y] == k.mail.inbox[y] && k'.mail.waitingFor[y] == k.mail.waitingFor[y] && k'.mail.frozen[y] == k.mail.frozen[y]
    && k'.mail.v0[y] == k.mail.v0[y] && k'.mail.val[y] == k.mail.val[y]
    && k'.mail.log[y] == k.mail.log[y] && k'.mail.got[y] == k.mail.got[y]
    && (forall kind :: TrapField(k'.traps, kind, y) == TrapField(k.traps, kind, y))
  }

  /** CREATEBROTHER: a child of the requester's parent, or of nobody if the requester has no parent; without managers. */
  lemma BrotherStands(r: Run, i: nat, x: Tid, arg: Addr)
    requires IsRun(r) && Requests(r, i, x, CREATEBROTHER, arg)
    ensures var k, k' := r.states[i], r.states[i + 1];
      && k.q.free != []
      && Born(k, k', k.q.free[0], x, k.tree.parent[x])
      && forall kind :: TrapField(k'.traps, kind, k.q.free[0]) == Null
  {
    hide Safe, Service, Born;
    RequestServed(r, i, x, CREATEBROTHER, arg);
    BrotherIsBorn(r.states[i], x, arg);
  }

  /** CREATESON: a child of the requester, with the requester's managers. */
  lemma SonStands(r: Run, i: nat, x: Tid, arg: Addr)
    requires IsRun(r) && Requests(r, i, x, CREATESON, arg)
    ensures var k, k' := r.states[i], r.states[i + 1];
      && k.q.free != []
      && Born(k, k', k.q.free[0], x, Some(x))
      && forall kind :: TrapField(k'.traps, kind, k.q.free[0]) == TrapField(k.traps, kind, x)
  {
    hide Safe, Service, Born;
    RequestServed(r, i, x, CREATESON, arg);
    SonIsBorn(r.states[i], x, arg);
  }

  /** The head of the free list is dead, without relatives, and not x; nobody is its child. */
  lemma FreeHead(k: K, x: Tid)
    requires Safe(k) && k.q.free != [] && Live(k.q, x)
    ensures var n := k.q.free[0];
      && n != x && k.tree.parent[n] == None && k.tree.kids[n] == [] && k.tree.parent[x] != Some(n)
      && k.threadCount < NT && k.q.free == [n] + k.q.free[1..]
  {
    hide MailOk, SsiOk, TrapsOk, PoolOk;
    PartitionMeans(k.q);
    assert k.q.free[0] in k.q.free;
  }

  lemma BrotherIsBorn(k: K, x: Tid, arg: Addr)
    requires Safe(k) && k.q.free != [] && Live(k.q, x)
    ensures Aged(k.tree)
    ensures var k', n := Service(k, x, CREATEBROTHER, arg), k.q.free[0];
      Born(k, k', n, x, k.tree.parent[x]) && forall kind :: TrapField(k'.traps, kind, n) == Null
  {
    hide Safe;
    SafeAged(k);
    FreeHead(k, x);
  }

  lemma SonIsBorn(k: K, x: Tid, arg: Addr)
    requires Safe(k) && k.q.free != [] && Live(k.q, x)
    ensures Aged(k.tree)
    ensures var k', n := Service(k, x, CREATESON, arg), k.q.free[0];
      Born(k, k', n, x, Some(x)) && forall kind :: TrapField(k'.traps, kind, n) == TrapField(k.traps, kind, x)
  {
    hide Safe;
    SafeAged(k);
    FreeHead(k, x);
  }

  // ----- trap managers -----

  /** The service that sets the manager for a kind of trap. */
  function SpecService(kind: TrapKind): (service: nat) {
    match kind
    case PgmTrap => SPECPRGMGR
    case TlbTrap => SPECTLBMGR
    case SysBp => SPECSYSMGR
  }

  /** Everything but the managers and the SSI's variables is as it was. */
  ghost predicate Untouched(k: K, k': K) {
    k'.q == k.q && k'.tree == k.tree && k'.mail == k.mail && k'.tm == k.tm && k'.threadCount == k.threadCount && k'.status == k.status
  }

  /** A manager that exists, for a kind of trap that has none yet, is set for this thread and this kind of trap and for no
      other; it is in the array afterwards if it was there or there was room. */
  ghost predicate ManagerSet(k: K, k': K, kind: TrapKind, x: Tid, m: Addr) {
    && Untouched(k, k')
    && (forall kind', y: Tid :: TrapField(k'.traps, kind', y) == if kind' == kind && y == x then m else TrapField(k.traps, kind', y))
    && (forall d: Tid :: Tcb(d) in k'.traps.managers <==> Tcb(d) in k.traps.managers || (Tcb(d) == m && Null in k.traps.managers))
    && k'.ssi.outbox == [Reply(x, Word(0))]
  }

  /** Otherwise the requester dies with its subtree. */
  lemma ManagerIsSet(r: Run, i: nat, x: Tid, kind: TrapKind, m: Addr)
    requires IsRun(r) && Requests(r, i, x, SpecService(kind), m)
    ensures var k, k' := r.states[i], r.states[i + 1];
      if TrapField(k.traps, kind, x) == Null && Queued(k.q, m) then ManagerSet(k, k', kind, x, m)
      else FreedSubtree(k, k', x) && k'.ssi.outbox == []
  {
    hide Safe, Service, FreedSubtree, ManagerSet;
    RequestServed(r, i, x, SpecService(kind), m);
    SpecManagerServed(r.states[i], kind, x, m);
  }

  lemma SpecManagerServed(k: K, kind: TrapKind, x: Tid, m: Addr)
    requires Safe(k) && Live(k.q, x)
    ensures Aged(k.tree)
    ensures var k' := Service(k, x, SpecService(kind), m);
      if TrapField(k.traps, kind, x) == Null && Queued(k.q, m) then ManagerSet(k, k', kind, x, m)
      else FreedSubtree(k, k', x) && k'.ssi.outbox == []
  {
    hide Safe, Terminate, FreedSubtree, Enlist;
    SafeAged(k);
    if TrapField(k.traps, kind, x) == Null && Queued(k.q, m) {
      forall d: Tid
        ensures Tcb(d) in Enlist(k.traps.managers, m) <==> Tcb(d) in k.traps.managers || (Tcb(d) == m && Null in k.traps.managers) {
        EnlistAdds(k.traps.managers, m, Tcb(d));
      }
    } else {
      TerminateServed(k, x);
    }
  }

  lemma EnlistAdds(ms: seq<Addr>, m: Addr, a: Addr)
    requires a != Null && m != Null
    ensures a in Enlist(ms, m) <==> a in ms || (a == m && Null in ms)
  {
    var i := FirstSlot(ms, m);
    if i < |ms| {
      assert Enlist(ms, m)[i] == m;
      assert forall j :: 0 <= j < |ms| && j != i ==> Enlist(ms, m)[j] == ms[j];
      assert ms[i] in ms;
    }
  }

  lemma TerminateServed(k: K, x: Tid)
    requires Safe(k) && Live(k.q, x)
    ensures Aged(k.tree)
    ensures var k' := Settle(Terminate(k, x), []); FreedSubtree(k, k', x) && k'.ssi.outbox == [] && k'.status == k.status
  {
    hide Safe, Terminate, FreedSubtree;
    TerminateFrees(k, x);
    SameFreed(k, Terminate(k, x), Settle(Terminate(k, x), []), x);
  }

  // ----- the other services, and whom they kill -----

  /** A request that costs the requester its life. */
  predicate Dooms(k: K, x: Tid, service: nat, arg: Addr) {
    || service == TERMINATE
    || (exists kind :: service == SpecService(kind) && (TrapField(k.traps, kind, x) != Null || !Queued(k.q, arg)))
    || (service == WAITFORIO && (!arg.Raw? || Devices.RestIndex(arg.w) == -1))
  }

  predicate Known(service: nat) {
    1 <= service <= 9
  }

  /** TERMINATE, a refused manager and an unknown device register kill the requester with its subtree, and nobody else. The
      services that neither create a thread nor set a manager change nothing but the SSI's variables; an unknown
      service is a PANIC. */
  lemma ServiceOutcome(r: Run, i: nat, x: Tid, service: nat, arg: Addr)
    requires IsRun(r) && Requests(r, i, x, service, arg)
    ensures var k, k' := r.states[i], r.states[i + 1];
      && (k'.status == Panicked <==> !Known(service))
      && (Dooms(k, x, service, arg) ==> FreedSubtree(k, k', x) && k'.ssi.outbox == [])
      && (service == WAITFORCLOCK || service == GETCPUTIME || (service == WAITFORIO && !Dooms(k, x, service, arg)) ==>
            Untouched(k, k') && k'.traps == k.traps)
      && (Known(service) && !Dooms(k, x, service, arg) && !Creates(service) ==> k'.q == k.q)
  {
    hide Safe, Service, FreedSubtree;
    RequestServed(r, i, x, service, arg);
    Outcome(r.states[i], x, service, arg);
  }

  lemma Outcome(k: K, x: Tid, service: nat, arg: Addr)
    requires Safe(k) && Live(k.q, x) && k.status == Running && (Creates(service) ==> k.q.free != [])
    ensures Aged(k.tree)
    ensures var k' := Service(k, x, service, arg);
      && (k'.status == Panicked <==> !Known(service))
      && (Dooms(k, x, service, arg) ==> FreedSubtree(k, k', x) && k'.ssi.outbox == [])
      && (service == WAITFORCLOCK || service == GETCPUTIME || (service == WAITFORIO && !Dooms(k, x, service, arg)) ==>
            Untouched(k, k') && k'.traps == k.traps)
      && (Known(service) && !Dooms(k, x, service, arg) && !Creates(service) ==> k'.q == k.q)
  {
    hide Safe, Terminate, FreedSubtree, BrotherBorn, SonBorn, SetManager, Devices.RestIndex, Devices.OnWait;
    TerminateServed(k, x);
    if k.q.free != [] { Frames.BirthKeeps(k, x); }
    forall kind ensures SetManager(k, kind, x, arg).q == k.q && SetManager(k, kind, x, arg).status == k.status {
      Frames.SetManagerKeeps(k, kind, x, arg);
    }
    assert SpecService(PgmTrap) == SPECPRGMGR && SpecService(TlbTrap) == SPECTLBMGR && SpecService(SysBp) == SPECSYSMGR;
  }

  /** Serving an interrupt, or the request of a thread that is not there any more, changes nothing but the SSI's
      variables; and for the latter there is no answer. */
  lemma OtherMessages(r: Run, i: nat)
    requires IsRun(r) && i < |r.events| && r.events[i].SsiServes?
    requires HeldLetter(r.states[i]).body.Irq? || !Queued(r.states[i].q, HeldLetter(r.states[i]).from)
    ensures Untouched(r.states[i], r.states[i + 1]) && r.states[i + 1].traps == r.states[i].traps
    ensures HeldLetter(r.states[i]).body.Req? ==> r.states[i + 1].ssi.outbox == []
  {
    hide Step, Safe, Enabled, Service;
    RanBefore(r, i);
    var k := r.states[i];
    ClientsOnly(k);
    StepIsServe(k, r.clocks[i]);
    NothingServed(k);
  }

  lemma ClientsOnly(k: K)
    requires Enabled(k, SsiServes)
    ensures HeldLetter(k).body.Req? || HeldLetter(k).body.Irq?
  {}

  lemma NothingServed(k: K)
    requires Aged(k.tree) && Enabled(k, SsiServes) && (HeldLetter(k).body.Irq? || !Queued(k.q, HeldLetter(k).from))
    ensures Untouched(k, SsiServe(k)) && SsiServe(k).traps == k.traps
    ensures HeldLetter(k).body.Req? ==> SsiServe(k).ssi.outbox == []
  {
    hide ReadLetter, Service, Devices.RestIndex, Devices.OnInterrupt;
  }

  /** Whom a step kills, with the whole subtree. */
  ghost function Victim(k: K, e: Event): (v: Option<Tid>)
    requires Enabled(k, e)
  {
    match e
    case TrapRaised(kind, _) => if TrapField(k.traps, kind, k.q.cur.value) == Null then k.q.cur else None
    case SendCall(to, body) => if TrapAnswer(k, e) && body == TRAPTERMINATE then Some(to.t) else None
    case SsiServes =>
      var l := HeldLetter(k);
      if l.body.Req? && Queued(k.q, l.from) && Dooms(k, l.from.t, l.body.service, l.body.arg) then Some(l.from.t) else None
    case _ => None
  }

  /** Nobody dies but the victim of a step and its descendants; and nobody is born but by a creation. */
  lemma WhoDies(r: Run, i: nat)
    requires IsRun(r) && i < |r.events| && r.states[i + 1].status == Running
    ensures Enabled(r.states[i], r.events[i])
    ensures var k, k', v := r.states[i], r.states[i + 1], Victim(r.states[i], r.events[i]);
      if v.Some? then FreedSubtree(k, k', v.value)
      else k'.q.free == k.q.free || (r.events[i].SsiServes? && HeldLetter(k).body.Req? && Creates(HeldLetter(k).body.service)
                                     && k.q.free != [] && k'.q.free == k.q.free[1..])
  {
    hide Step, Safe, Enabled, Handle, Scheduler, FreedSubtree, Dooms;
    RanBefore(r, i);
    var k, e, clk := r.states[i], r.events[i], r.clocks[i];
    if e.SsiServes? {
      ServeDeaths(r, i);
    } else if e.TrapRaised? {
      TrapFreezes(r, i);
    } else if TrapAnswer(k, e) {
      AnswersObeyed(r, i);
    } else {
      HandleFree(k, e, clk);
      StepIsHandle(k, e, clk);
      Frames.SchedulerKeeps(Handle(k, e, clk), clk);
    }
  }

  lemma ServeDeaths(r: Run, i: nat)
    requires IsRun(r) && i < |r.events| && r.events[i].SsiServes? && r.states[i + 1].status == Running
    ensures Enabled(r.states[i], r.events[i])
    ensures var k, k', v := r.states[i], r.states[i + 1], Victim(r.states[i], r.events[i]);
      if v.Some? then FreedSubtree(k, k', v.value)
      else k'.q.free == k.q.free || (HeldLetter(k).body.Req? && Creates(HeldLetter(k).body.service)
                                     && k.q.free != [] && k'.q.free == k.q.free[1..])
  {
    hide Step, Safe, Enabled, FreedSubtree, Dooms, Born;
    RanBefore(r, i);
    var l := HeldLetter(r.states[i]);
    ClientsOnly(r.states[i]);
    if l.body.Req? && Queued(r.states[i].q, l.from) {
      ServiceOutcome(r, i, l.from.t, l.body.service, l.body.arg);
      if Creates(l.body.service) {
        BornFromFree(r, i, l.from.t, l.body.service, l.body.arg);
      }
    } else {
      OtherMessages(r, i);
    }
  }

  lemma BornFromFree(r: Run, i: nat, x: Tid, service: nat, arg: Addr)
    requires IsRun(r) && Requests(r, i, x, service, arg) && Creates(service)
    ensures r.states[i].q.free != [] && r.states[i + 1].q.free == r.states[i].q.free[1..]
    ensures !Dooms(r.states[i], x, service, arg)
  {
    if service == CREATEBROTHER { BrotherStands(r, i, x, arg); } else { SonStands(r, i, x, arg); }
  }

  lemma HandleFree(k: K, e: Event, clk: seq<nat>)
    requires Safe(k) && |clk| == 8 && Enabled(k, e) && !e.SsiServes? && !e.TrapRaised? && !TrapAnswer(k, e)
    ensures Aged(k.tree) && Handle(k, e, clk).q.free == k.q.free
  {
    hide Safe, Deliver, Send, Notify, TimerInterrupt;
    SafeAged(k);
    var k' := Enter(k, clk);
    match e
    case SendCall(to, body) =>
      AnswerIs(k, to, body);
      Frames.DeliverKeeps(Announce(k', to), k.q.cur.value, Target(to), body);
    case TimerIrq => TimerFree(k', clk);
    case DeviceIrq(line, dev, status) => NotifyFree(k', Raw(Devices.RegisterAddr(line, dev)), INTERRUPT_MSG, status);
    case TerminalIrq(dev, trans, recv) =>
      var base := Devices.RegisterAddr(Devices.INT_TERMINAL, dev);
      NotifyFree(k', Raw(base + 0x8), INTERRUPT_MSG, trans);
      NotifyFree(k', Raw(base), INTERRUPT_MSG, recv);
    case SsiCalls => CallFree(k, clk);
    case _ =>
  }

  lemma CallFree(k: K, clk: seq<nat>)
    requires Safe(k) && |clk| == 8 && Enabled(k, SsiCalls)
    ensures Aged(k.tree) && Handle(k, SsiCalls, clk).q.free == k.q.free
  {
    hide MailOk, PoolOk, TreeOk, Partition, LetterOk, Deliver;
    SafeAged(k);
    var k' := Enter(k, clk);
    if k.ssi.pc == Sending {
      Frames.DeliverKeeps(k', SSI, Tcb(k.ssi.outbox[0].to), k.ssi.outbox[0].body);
    }
  }

  lemma NotifyFree(k: K, from: Addr, service: nat, status: nat)
    ensures Notify(k, from, service, status).q.free == k.q.free
  {
    hide Send;
    var l := Report(k, from, service, status);
    Frames.SendKeeps(Record(k, Some(l)), from, Tcb(SSI), l.body);
  }

  lemma TimerFree(k: K, clk: seq<nat>)
    requires |clk| == 8
    ensures TimerInterrupt(k, clk).q.free == k.q.free
  {
    hide Notify;
    NotifyFree(k.(tm := KernelSpec.Timing.Count(k.tm, clk)), Timer, PSEUDOCLOCK_MSG, 0);
  }

  // ----- the array of trap managers -----

  /** `delete_manager` takes one entry of each of the dead out of the array, if there is one. */
  lemma {:induction false} DismissEach(ms: seq<Addr>, ds: seq<Tid>, x: Tid)
    requires NoDup(ds)
    ensures var n := multiset(ms)[Tcb(x)]; multiset(Dismiss(ms, ds))[Tcb(x)] == if x in ds && n > 0 then n - 1 else n
  {
    if ds != [] {
      var es, d := ds[..|ds| - 1], ds[|ds| - 1];
      DismissEach(ms, es, x);
      assert ds == es + [d];
      var ns := Dismiss(ms, es);
      assert Tcb(d) in ns <==> multiset(ns)[Tcb(d)] > 0;
    }
  }

  /** Each thread of the subtree of t has lost one entry; everybody else's, and the threads' own fields, are as before. */
  ghost predicate ManagersGone(k: K, k': K, t: Tid) {
    && TreeOk(k.tree) && k'.traps.sys == k.traps.sys && k'.traps.pgm == k.traps.pgm && k'.traps.tlb == k.traps.tlb
    && forall x: Tid :: var n := multiset(k.traps.managers)[Tcb(x)];
         multiset(k'.traps.managers)[Tcb(x)] == if Under(k.tree, x, t) && n > 0 then n - 1 else n
  }

  lemma TerminateManagers(k: K, t: Tid)
    requires TreeOk(k.tree) && Live(k.q, t)
    ensures ManagersGone(k, Terminate(k, t), t)
  {
    hide Under, PostOrder, Dismiss, Reap, Prune, Discard;
    var ds := PostOrder(k.tree, t);
    PostOrderNoDup(k.tree, t);
    forall x: Tid
      ensures var n := multiset(k.traps.managers)[Tcb(x)];
        multiset(Dismiss(k.traps.managers, ds))[Tcb(x)] == if Under(k.tree, x, t) && n > 0 then n - 1 else n {
      PostOrderMembers(k.tree, t, x);
      DismissEach(k.traps.managers, ds, x);
    }
  }

  /** A death takes the dead out of the array of managers; besides, only the services that set a manager or create a thread
      change who is whose manager or relative. */
  lemma ManagersStay(r: Run, i: nat)
    requires IsRun(r) && i < |r.events| && r.states[i + 1].status == Running
    ensures Enabled(r.states[i], r.events[i])
    ensures var k, k', v := r.states[i], r.states[i + 1], Victim(r.states[i], r.events[i]);
      && (v.Some? ==> ManagersGone(k, k', v.value))
      && (v.None? && !r.events[i].SsiServes? ==> k'.traps == k.traps && k'.tree == k.tree)
  {
    hide Step, Safe, Enabled, Handle, Scheduler, ManagersGone, Dooms, SsiServe;
    RanBefore(r, i);
    var k, e, clk := r.states[i], r.events[i], r.clocks[i];
    if e.SsiServes? {
      if Victim(k, e).Some? {
        ServeManagers(r, i);
      }
    } else {
      HandleManagers(k, e, clk);
      StepIsHandle(k, e, clk);
      Frames.SchedulerKeeps(Handle(k, e, clk), clk);
      if Victim(k, e).Some? { SameGone(k, k, Handle(k, e, clk), r.states[i + 1], Victim(k, e).value); }
    }
  }

  lemma SameGone(k: K, j: K, h: K, k': K, t: Tid)
    requires j.tree == k.tree && j.traps == k.traps && h.traps == k'.traps
    ensures ManagersGone(k, h, t) ==> ManagersGone(j, k', t)
  {}

  lemma ServeManagers(r: Run, i: nat)
    requires IsRun(r) && i < |r.events| && r.events[i].SsiServes? && Enabled(r.states[i], r.events[i])
    requires Victim(r.states[i], r.events[i]).Some?
    ensures ManagersGone(r.states[i], r.states[i + 1], Victim(r.states[i], r.events[i]).value)
  {
    hide Step, Safe, Enabled, Service, ManagersGone, Dooms;
    var l := HeldLetter(r.states[i]);
    assert Requests(r, i, l.from.t, l.body.service, l.body.arg);
    RequestServed(r, i, l.from.t, l.body.service, l.body.arg);
    DoomedManagers(r.states[i], l.from.t, l.body.service, l.body.arg);
  }

  lemma DoomedManagers(k: K, x: Tid, service: nat, arg: Addr)
    requires Safe(k) && Live(k.q, x) && Dooms(k, x, service, arg) && (Creates(service) ==> k.q.free != [])
    ensures Aged(k.tree) && ManagersGone(k, Service(k, x, service, arg), x)
  {
    hide Safe, Terminate, ManagersGone, BrotherBorn, SonBorn, SetManager, Devices.RestIndex, Devices.OnWait;
    SafeStructure(k);
    TerminateManagers(k, x);
    SameGone(k, k, Terminate(k, x), Settle(Terminate(k, x), []), x);
  }

  lemma HandleManagers(k: K, e: Event, clk: seq<nat>)
    requires Safe(k) && |clk| == 8 && Enabled(k, e) && !e.SsiServes?
    ensures Aged(k.tree)
    ensures var h, v := Handle(k, e, clk), Victim(k, e);
      h.status == Running ==> if v.Some? then ManagersGone(k, h, v.value) else h.traps == k.traps && h.tree == k.tree
  {
    hide Safe, MsgSend, Trap, Send, Notify, TimerInterrupt, ManagersGone, SsiCall;
    SafeAged(k);
    var k' := Enter(k, clk);
    match e
    case SendCall(to, body) => SendManagers(k, to, body, clk);
    case TrapRaised(kind, cause) => TrapManagers(k, kind, cause, clk);
    case TimerIrq => TimerTraps(k', clk);
    case DeviceIrq(line, dev, status) => NotifyTraps(k', Raw(Devices.RegisterAddr(line, dev)), INTERRUPT_MSG, status);
    case TerminalIrq(dev, trans, recv) =>
      var base := Devices.RegisterAddr(Devices.INT_TERMINAL, dev);
      NotifyTraps(k', Raw(base + 0x8), INTERRUPT_MSG, trans);
      NotifyTraps(k', Raw(base), INTERRUPT_MSG, recv);
    case SsiCalls => CallTraps(k, clk);
    case _ =>
  }

  lemma SendManagers(k: K, to: Addr, body: Payload, clk: seq<nat>)
    requires Safe(k) && |clk| == 8 && Enabled(k, SendCall(to, body))
    ensures Aged(k.tree)
    ensures var h, v := Handle(k, SendCall(to, body), clk), Victim(k, SendCall(to, body));
      h.status == Running ==> if v.Some? then ManagersGone(k, h, v.value) else h.traps == k.traps && h.tree == k.tree
  {
    hide Safe, Send, Terminate, ManagersGone;
    SafeAged(k);
    SafeStructure(k);
    AnswerIs(k, to, body);
    var a := Announce(Enter(k, clk), to);
    Frames.SendKeeps(a, Tcb(k.q.cur.value), Target(to), body);
    if TrapAnswer(k, SendCall(to, body)) {
      if Live(k.q, to.t) {
        TerminateManagers(a, to.t);
        SameGone(a, k, Terminate(a, to.t), Terminate(a, to.t), to.t);
      } else {
        TerminateDead(a, to.t);
      }
    }
  }

  lemma TrapManagers(k: K, kind: TrapKind, cause: nat, clk: seq<nat>)
    requires Safe(k) && |clk| == 8 && Enabled(k, TrapRaised(kind, cause))
    ensures Aged(k.tree)
    ensures var h, v := Handle(k, TrapRaised(kind, cause), clk), Victim(k, TrapRaised(kind, cause));
      h.status == Running ==> if v.Some? then ManagersGone(k, h, v.value) else h.traps == k.traps && h.tree == k.tree
  {
    hide Safe, Send, Terminate, ManagersGone;
    SafeAged(k);
    SafeStructure(k);
    var k', t := Enter(k, clk), k.q.cur.value;
    Frames.SendKeeps(k', Tcb(t), TrapField(k.traps, kind, t), Word(cause));
    TerminateManagers(k', t);
    SameGone(k', k, Terminate(k', t), Terminate(k', t), t);
  }

  lemma CallTraps(k: K, clk: seq<nat>)
    requires Safe(k) && |clk| == 8 && Enabled(k, SsiCalls)
    ensures Aged(k.tree) && Handle(k, SsiCalls, clk).traps == k.traps && Handle(k, SsiCalls, clk).tree == k.tree
  {
    hide MailOk, PoolOk, TreeOk, Partition, LetterOk, Send;
    SafeAged(k);
    if k.ssi.pc == Sending {
      Frames.SendKeeps(Enter(k, clk), Tcb(SSI), Tcb(k.ssi.outbox[0].to), k.ssi.outbox[0].body);
    }
  }

  lemma NotifyTraps(k: K, from: Addr, service: nat, status: nat)
    ensures Notify(k, from, service, status).traps == k.traps && Notify(k, from, service, status).tree == k.tree
  {
    hide Send;
    var l := Report(k, from, service, status);
    Frames.SendKeeps(Record(k, Some(l)), from, Tcb(SSI), l.body);
  }

  lemma TimerTraps(k: K, clk: seq<nat>)
    requires |clk| == 8
    ensures TimerInterrupt(k, clk).traps == k.traps && TimerInterrupt(k, clk).tree == k.tree
  {
    hide Notify;
    NotifyTraps(k.(tm := KernelSpec.Timing.Count(k.tm, clk)), Timer, PSEUDOCLOCK_MSG, 0);
  }
}
