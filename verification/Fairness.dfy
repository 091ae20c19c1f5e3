/** Round-robin order and trap isolation, over whole runs. */
module Fairness {
  import opened Types
  import opened Sequences
  import opened ProcessTree
  import opened ThreadQueues
  import opened Mailboxes
  import opened KernelSpec
  import opened Invariants
  import opened Runs
  import Timing
  import Frames

  // ----- what a handler does to ready_queue -----

  /** Those that die leave the queue, everybody else keeps the order, and newcomers stand behind. */
  ghost predicate Ordered(q: Queues, q': Queues) {
    Minus(q.ready, Elems(q'.free)) <= q'.ready
  }

  lemma AppendOrdered(q: Queues, q': Queues, more: seq<Tid>)
    requires Partition(q) && q'.ready == q.ready + more && forall t: Tid :: t in q'.free ==> t in q.free
    ensures Ordered(q, q')
  {
    hide Partition;
    PartitionMeans(q);
    MinusNone(q.ready, Elems(q'.free));
  }

  lemma SameOrdered(q: Queues, q': Queues)
    requires Partition(q) && q'.ready == q.ready && q'.free == q.free
    ensures Ordered(q, q')
  {
    assert q.ready + [] == q.ready;
    AppendOrdered(q, q', []);
  }

  lemma ReapOrdered(q: Queues, ds: seq<Tid>)
    requires Partition(q)
    ensures Ordered(q, Reap(q, ds))
  {
    hide Partition;
    PartitionMeans(q);
    MinusSame(q.ready, Elems(Reap(q, ds).free), Elems(ds));
  }

  lemma MoreOrdered(q: Queues, q': Queues, q'': Queues)
    requires Ordered(q, q') && q'.ready <= q''.ready && q''.free == q'.free
    ensures Ordered(q, q'')
  {}

  lemma SendOrdered(k: K, sender: Addr, target: Addr, body: Payload)
    requires Partition(k.q)
    ensures Ordered(k.q, Send(k, sender, target, body).q)
  {
    SameOrdered(k.q, k.q);
    if target.Tcb? {
      AppendOrdered(k.q, Wake(k.q, target.t), [target.t]);
    }
  }

  lemma TerminateOrdered(k: K, x: Tid)
    requires Partition(k.q) && Aged(k.tree)
    ensures Ordered(k.q, Terminate(k, x).q)
  {
    SameOrdered(k.q, k.q);
    ReapOrdered(k.q, PostOrder(k.tree, x));
  }

  lemma DeliverOrdered(k: K, x: Tid, target: Addr, body: Payload)
    requires Partition(k.q)
    ensures Ordered(k.q, Deliver(k, x, target, body).q)
  {
    hide Send, Partition;
    SendOrdered(k, Tcb(x), target, body);
  }

  lemma MsgSendOrdered(k: K, to: Addr, body: Payload)
    requires Partition(k.q) && k.q.cur.Some? && Aged(k.tree)
    ensures Ordered(k.q, MsgSend(k, to, body).q)
  {
    hide Deliver, Terminate, Partition;
    var a, x := Announce(k, to), k.q.cur.value;
    if !Intercepted(a, x, Target(to), body) {
      DeliverOrdered(a, x, Target(to), body);
    } else if body == TRAPTERMINATE {
      TerminateOrdered(a, Target(to).t);
    } else {
      AppendOrdered(a.q, Resume(a, Target(to).t).q, [Target(to).t]);
    }
  }

  lemma NotifyOrdered(k: K, from: Addr, service: nat, status: nat)
    requires Partition(k.q)
    ensures Ordered(k.q, Notify(k, from, service, status).q)
  {
    hide Send, Partition;
    var l := Report(k, from, service, status);
    SameOrdered(k.q, k.q);
    SendOrdered(Record(k, Some(l)), from, Tcb(SSI), l.body);
  }

  lemma TerminalOrdered(k: K, dev: nat, trans: nat, recv: nat)
    requires Partition(k.q) && dev < 8
    ensures Ordered(k.q, TerminalInterrupt(k, dev, trans, recv).q)
  {
    hide Notify, Partition;
    var base := KernelSpec.Devices.RegisterAddr(KernelSpec.Devices.INT_TERMINAL, dev);
    NotifyOrdered(k, Raw(base + 0x8), INTERRUPT_MSG, trans);
    NotifyOrdered(k, Raw(base), INTERRUPT_MSG, recv);
    SameOrdered(k.q, k.q);
  }

  lemma TimerOrdered(k: K, clk: seq<nat>)
    requires Partition(k.q) && |clk| == 8
    ensures Ordered(k.q, TimerInterrupt(k, clk).q)
  {
    hide Notify, Partition;
    var c := k.(tm := Timing.Count(k.tm, clk));
    var n := if Timing.TickDue(c.tm) then Notify(c, Timer, PSEUDOCLOCK_MSG, 0) else Record(c, None);
    NotifyOrdered(c, Timer, PSEUDOCLOCK_MSG, 0);
    SameOrdered(c.q, c.q);
    MoreOrdered(k.q, n.q, TimerInterrupt(k, clk).q);
  }

  lemma RecvOrdered(k: K, from: Addr)
    requires Partition(k.q) && k.q.cur.Some?
    ensures Ordered(k.q, Recv(k, from).q)
  {
    hide Partition;
    SameOrdered(k.q, Recv(k, from).q);
  }

  lemma SsiCallOrdered(k: K)
    requires Partition(k.q) && k.q.cur.Some? && Aged(k.tree) && (k.ssi.pc == Sending ==> k.ssi.outbox != [])
    ensures Ordered(k.q, SsiCall(k).q)
  {
    hide MsgSend, Recv, Partition;
    if k.ssi.pc == Sending {
      MsgSendOrdered(k, Tcb(k.ssi.outbox[0].to), k.ssi.outbox[0].body);
    } else {
      RecvOrdered(k, Null);
    }
  }

  lemma TrapOrdered(k: K, kind: TrapKind, cause: nat)
    requires Partition(k.q) && k.q.cur.Some? && Aged(k.tree)
    ensures Ordered(k.q, Trap(k, kind, cause).q)
  {
    hide Send, Terminate, Partition;
    var x := k.q.cur.value;
    TerminateOrdered(k, x);
    SendOrdered(k, Tcb(x), ManagerOf(k, kind, x), Word(cause));
  }

  lemma HandleOrdered(k: K, e: Event, clk: seq<nat>)
    requires Partition(k.q) && |clk| == 8 && Aged(k.tree) && Enabled(k, e) && !e.SsiServes?
    ensures Ordered(k.q, Handle(k, e, clk).q)
  {
    hide MsgSend, Recv, Trap, SsiCall, TimerInterrupt, TerminalInterrupt, Notify, Partition;
    var k' := Enter(k, clk);
    assert k'.q == k.q;
    match e
    case SendCall(to, body) => MsgSendOrdered(k', to, body);
    case RecvCall(from) => RecvOrdered(k', from);
    case TrapRaised(kind, cause) => TrapOrdered(k', kind, cause);
    case SsiCalls => SsiCallOrdered(k');
    case TimerIrq => TimerOrdered(k', clk);
    case DeviceIrq(line, dev, status) =>
      NotifyOrdered(k', Raw(KernelSpec.Devices.RegisterAddr(line, dev)), INTERRUPT_MSG, status);
    case TerminalIrq(dev, trans, recv) => TerminalOrdered(k', dev, trans, recv);
    case NoLineIrq => SameOrdered(k.q, k'.q);
  }

  lemma SpecManagerOrdered(k: K, kind: TrapKind, x: Tid, m: Addr)
    requires Partition(k.q) && Aged(k.tree)
    ensures Ordered(k.q, SpecManager(k, kind, x, m).q)
  {
    hide Terminate, SetManager, Partition;
    TerminateOrdered(k, x);
    Frames.SetManagerKeeps(k, kind, x, m);
    SameOrdered(k.q, k.q);
  }

  lemma WaitForIoOrdered(k: K, x: Tid, arg: Addr)
    requires Partition(k.q) && Aged(k.tree)
    ensures Ordered(k.q, WaitForIo(k, x, arg).q)
  {
    hide Terminate, Partition, KernelSpec.Devices.RestIndex, KernelSpec.Devices.OnWait;
    TerminateOrdered(k, x);
    SameOrdered(k.q, k.q);
  }

  lemma CreateOrdered(k: K, x: Tid)
    requires Partition(k.q) && k.q.free != []
    ensures Ordered(k.q, Brother(k, x).q) && Ordered(k.q, Son(k, x).q)
  {
    hide Partition;
    assert k.q.free == [k.q.free[0]] + k.q.free[1..];
    AppendOrdered(k.q, Claim(k.q), [k.q.free[0]]);
  }

  /** A service changes ready_queue only by adding one thread at its end or by a termination. */
  lemma ServiceOrdered(k: K, x: Tid, service: nat, arg: Addr)
    requires Partition(k.q) && Aged(k.tree) && (Creates(service) ==> k.q.free != [])
    ensures Ordered(k.q, Service(k, x, service, arg).q)
  {
    hide Terminate, Brother, Son, SpecManager, WaitForIo, Partition;
    SameOrdered(k.q, k.q);
    if Creates(service) {
      CreateOrdered(k, x);
    } else if service == TERMINATE {
      TerminateOrdered(k, x);
    } else if service == SPECPRGMGR {
      SpecManagerOrdered(k, PgmTrap, x, arg);
    } else if service == SPECTLBMGR {
      SpecManagerOrdered(k, TlbTrap, x, arg);
    } else if service == SPECSYSMGR {
      SpecManagerOrdered(k, SysBp, x, arg);
    } else if service == WAITFORIO {
      WaitForIoOrdered(k, x, arg);
    }
  }

  lemma ServeOrdered(k: K)
    requires Partition(k.q) && Aged(k.tree) && Enabled(k, SsiServes)
    ensures Ordered(k.q, SsiServe(k).q)
  {
    hide Service, ReadLetter, Partition, KernelSpec.Devices.RestIndex, KernelSpec.Devices.OnInterrupt;
    var l := ReadLetter(k);
    SameOrdered(k.q, k.q);
    if l.body.Req? && Queued(k.q, l.from) {
      ServiceOrdered(k, l.from.t, l.body.service, l.body.arg);
    }
  }

  /** A service dispatches nobody. */
  lemma ServeDispatchesNobody(k: K)
    requires Aged(k.tree) && Enabled(k, SsiServes)
    ensures SsiServe(k).tm.dispatches == k.tm.dispatches
  {
    hide Terminate, BrotherBorn, SonBorn, SetManager, ReadLetter;
    hide KernelSpec.Devices.RestIndex, KernelSpec.Devices.OnWait, KernelSpec.Devices.OnInterrupt;
    var l := ReadLetter(k);
    if l.body.Req? && l.from.Tcb? {
      forall kind, m ensures SetManager(k, kind, l.from.t, m).tm == k.tm {
        Frames.SetManagerKeeps(k, kind, l.from.t, m);
      }
      Frames.TerminateKeeps(k, l.from.t);
      if k.q.free != [] { Frames.BirthKeeps(k, l.from.t); }
    }
  }

  // ----- positions -----

  lemma IndexSplit<T(!new)>(a: seq<T>, b: seq<T>, x: T)
    requires x !in a && b != [] && b[0] == x
    ensures IndexOf(a + b, x) == |a|
  {
    var i := IndexOf(a + b, x);
    assert (a + b)[|a|] == x;
  }

  /** How many of those ahead of t in q die on the way to q'. */
  ghost function DeathsAhead(q: Queues, q': Queues, t: Tid): (n: nat) {
    var ahead := q.ready[..IndexOf(q.ready, t)];
    |ahead| - |Minus(ahead, Elems(q'.free))|
  }

  lemma PlaceInMinus<T(!new)>(s: seq<T>, d: set<T>, x: T, more: seq<T>)
    requires x in s && x !in d
    ensures IndexOf(Minus(s, d) + more, x) == |Minus(s[..IndexOf(s, x)], d)|
  {
    hide Minus, IndexOf;
    var i := IndexOf(s, x);
    assert s == s[..i] + ([x] + s[i + 1..]);
    PlaceAround(s[..i], x, s[i + 1..], d, more);
  }

  lemma PlaceAround<T(!new)>(a: seq<T>, x: T, b: seq<T>, d: set<T>, more: seq<T>)
    requires x !in a && x !in d
    ensures IndexOf(Minus(a + ([x] + b), d) + more, x) == |Minus(a, d)|
  {
    hide Minus, IndexOf;
    MinusConcat(a, [x] + b, d);
    MinusConcat([x], b, d);
    MinusNone([x], d);
    var kept, rest := Minus(a, d), [x] + (Minus(b, d) + more);
    assert Minus(a, d) + ([x] + Minus(b, d)) + more == kept + rest;
    IndexSplit(kept, rest, x);
  }

  /** Whoever does not die moves up by the number of deaths ahead of it. */
  lemma OrderedPlace(q: Queues, q': Queues, t: Tid)
    requires Ordered(q, q') && t in q.ready && t !in q'.free
    ensures t in q'.ready && IndexOf(q'.ready, t) + DeathsAhead(q, q', t) == IndexOf(q.ready, t)
  {
    hide IndexOf;
    var kept := Minus(q.ready, Elems(q'.free));
    assert t in kept && q'.ready == kept + q'.ready[|kept|..];
    PlaceInMinus(q.ready, Elems(q'.free), t, q'.ready[|kept|..]);
  }

  /** The scheduler takes the head of ready_queue or nobody. */
  lemma ScheduledPlace(h: K, clk: seq<nat>, t: Tid)
    requires |clk| == 8 && t in h.q.ready && NoDup(h.q.ready)
    ensures var k' := Scheduler(h, clk);
      && k'.q.free == h.q.free
      && (if t in k'.q.ready then IndexOf(k'.q.ready, t) + k'.tm.dispatches == IndexOf(h.q.ready, t) + h.tm.dispatches
          else k'.q.cur == Some(t) && IndexOf(h.q.ready, t) == 0 && k'.tm.dispatches == h.tm.dispatches + 1)
  {
    if h.status == Running && h.q.cur.None? && h.q.ready != [] {
      assert h.q.ready == [h.q.ready[0]] + h.q.ready[1..];
    }
  }

  /** A ready thread that does not die moves up by the deaths ahead of it and by each dispatch of somebody else; it leaves
      the queue only from its head. */
  lemma StepPlace(k: K, e: Event, clk: seq<nat>, k': K, t: Tid)
    requires Safe(k) && Next(k, e, clk, k') && t in k.q.ready && t !in k'.q.free
    ensures if t in k'.q.ready
      then IndexOf(k'.q.ready, t) + k'.tm.dispatches + DeathsAhead(k.q, k'.q, t) == IndexOf(k.q.ready, t) + k.tm.dispatches
      else k'.q.cur == Some(t) && IndexOf(k.q.ready, t) == DeathsAhead(k.q, k'.q, t) && k'.tm.dispatches == k.tm.dispatches + 1
  {
    hide Safe, Handle, SsiServe, Scheduler, Enabled, Partition, IndexOf, DeathsAhead;
    SafePartition(k);
    if e.SsiServes? {
      ServeOrdered(k);
      ServeDispatchesNobody(k);
      OrderedPlace(k.q, k'.q, t);
    } else {
      var h := Handle(k, e, clk);
      HandleSafe(k, e, clk);
      SafePartition(h);
      PartitionMeans(h.q);
      HandleOrdered(k, e, clk);
      Frames.HandleKeeps(k, e, clk);
      Frames.SchedulerKeeps(h, clk);
      SameDeaths(k.q, h.q, k'.q, t);
      OrderedPlace(k.q, h.q, t);
      ScheduledPlace(h, clk, t);
    }
  }

  lemma SameDeaths(q: Queues, q': Queues, q'': Queues, t: Tid)
    requires q'.free == q''.free
    ensures DeathsAhead(q, q', t) == DeathsAhead(q, q'', t)
  {}

  lemma SafePartition(k: K)
    requires Safe(k)
    ensures Partition(k.q)
  {}

  /** The deaths ahead of t from state i to state j. */
  ghost function Deaths(r: Run, i: nat, j: nat, t: Tid): (n: nat)
    requires i <= j < |r.states|
    decreases j
  {
    if i == j then 0 else Deaths(r, i, j - 1, t) + DeathsAhead(r.states[j - 1].q, r.states[j].q, t)
  }

  /** Bounded bypass: while a thread stays in ready_queue it moves up by exactly one place for every thread that is
      dispatched and for every thread ahead of it that dies. So at most as many others are dispatched as were
      ahead of it; nothing that happens in the system puts anyone in front of it. */
  lemma {:induction false} BoundedBypass(r: Run, i: nat, j: nat, t: Tid)
    requires IsRun(r) && i <= j < |r.states|
    requires forall m :: i <= m <= j ==> t in r.states[m].q.ready
    ensures IndexOf(r.states[i].q.ready, t) - IndexOf(r.states[j].q.ready, t)
         == r.states[j].tm.dispatches - r.states[i].tm.dispatches + Deaths(r, i, j, t)
    ensures r.states[j].tm.dispatches - r.states[i].tm.dispatches
         <= IndexOf(r.states[i].q.ready, t) - IndexOf(r.states[j].q.ready, t)
    decreases j
  {
    hide Next, IndexOf, DeathsAhead, Deaths;
    DeathsGrow(r, i, j, t);
    if i < j {
      BoundedBypass(r, i, j - 1, t);
      BypassStep(r, j - 1, t);
    }
  }

  lemma DeathsGrow(r: Run, i: nat, j: nat, t: Tid)
    requires i <= j < |r.states|
    ensures Deaths(r, i, j, t) ==
      if i == j then 0 else Deaths(r, i, j - 1, t) + DeathsAhead(r.states[j - 1].q, r.states[j].q, t)
  {}

  lemma BypassStep(r: Run, j: nat, t: Tid)
    requires IsRun(r) && j < |r.events| && t in r.states[j].q.ready && t in r.states[j + 1].q.ready
    ensures IndexOf(r.states[j + 1].q.ready, t) + r.states[j + 1].tm.dispatches + DeathsAhead(r.states[j].q, r.states[j + 1].q, t)
         == IndexOf(r.states[j].q.ready, t) + r.states[j].tm.dispatches
  {
    hide Step, Enabled;
    Reachable(r, j);
    Reachable(r, j + 1);
    RunStep(r, j);
    PartitionMeans(r.states[j + 1].q);
    StepPlace(r.states[j], r.events[j], r.clocks[j], r.states[j + 1], t);
  }

  /** A thread leaves ready_queue only by dying or from its head: it is on the CPU then, and everybody who was ahead of it
      has died. */
  lemma LeavesAsHead(r: Run, j: nat, t: Tid)
    requires IsRun(r) && j < |r.events| && t in r.states[j].q.ready && t !in r.states[j + 1].q.ready
    ensures var q, q' := r.states[j].q, r.states[j + 1].q;
      || t in q'.free
      || (q'.cur == Some(t) && forall x: Tid :: x in q.ready[..IndexOf(q.ready, t)] ==> x in q'.free)
  {
    hide Step, Enabled;
    Reachable(r, j);
    RunStep(r, j);
    var q, q' := r.states[j].q, r.states[j + 1].q;
    if t !in q'.free {
      StepPlace(r.states[j], r.events[j], r.clocks[j], r.states[j + 1], t);
      AllDead(q.ready[..IndexOf(q.ready, t)], Elems(q'.free));
    }
  }

  lemma AllDead(s: seq<Tid>, d: set<Tid>)
    requires Minus(s, d) == []
    ensures forall x: Tid :: x in s ==> x in d
  {
    forall x: Tid | x in s ensures x in d {
      assert x !in Minus(s, d);
    }
  }

  // ----- frozen threads -----

  /** t is frozen on the same manager as before. */
  ghost predicate StillFrozen(k: K, k': K, t: Tid) {
    t in k'.q.wait && k'.mail.frozen[t] && k'.mail.waitingFor[t] == k.mail.waitingFor[t]
  }

  /** The one event that releases a frozen thread: TRAPCONTINUE from the manager it is frozen on. */
  predicate Releases(k: K, e: Event, t: Tid) {
    && e.SendCall? && e.to == Tcb(t) && e.body == TRAPCONTINUE
    && k.q.cur.Some? && k.mail.waitingFor[t] == Tcb(k.q.cur.value) && IsManager(k, k.q.cur.value)
  }

  /** The running thread is a trap manager and gives one of its two answers to a thread that waits for it. */
  predicate TrapAnswer(k: K, e: Event) {
    && e.SendCall? && k.q.cur.Some? && Tcb(k.q.cur.value) in k.traps.managers
    && e.to.Tcb? && k.mail.waitingFor[e.to.t] == Tcb(k.q.cur.value)
    && (e.body == TRAPTERMINATE || e.body == TRAPCONTINUE)
  }

  /** What is sent to t in a step: by the running thread, on behalf of a thread that traps, or by the SSI. */
  function SentTo(k: K, e: Event, t: Tid): (ls: seq<Letter>)
    requires Enabled(k, e)
  {
    match e
    case SendCall(to, body) =>
      if (to == Tcb(t) || (to == Magic && t == SSI)) && !TrapAnswer(k, e) then [Letter(Tcb(k.q.cur.value), body)] else []
    case TrapRaised(kind, cause) =>
      if ManagerOf(k, kind, k.q.cur.value) == Tcb(t) then [Letter(Tcb(k.q.cur.value), Word(cause))] else []
    case SsiCalls => if k.ssi.pc == Sending && k.ssi.outbox[0].to == t then [Letter(Magic, k.ssi.outbox[0].body)] else []
    case _ => []
  }

  /** The kernel recognises the answers. */
  lemma AnswerIs(k: K, to: Addr, body: Payload)
    requires Safe(k) && k.q.cur.Some? && to != Tcb(SSI)
    ensures TrapAnswer(k, SendCall(to, body)) <==> Intercepted(k, k.q.cur.value, Target(to), body)
  {}

  /** These letters, and no others, have been put at the end of the inbox of t, and t has received nothing. */
  ghost predicate QueuedUp(m: Mail, m': Mail, t: Tid, more: seq<Letter>) {
    && Letters(m'.inbox[t]) == Letters(m.inbox[t]) + more
    && m'.log[t] == m.log[t] + more && m'.got[t] == m.got[t]
  }

  ghost predicate Isolated(k: K, k': K, t: Tid, more: seq<Letter>) {
    t in k.q.wait && k.mail.frozen[t] ==>
      t in k'.q.free || (StillFrozen(k, k', t) && (k'.status == Running ==> QueuedUp(k.mail, k'.mail, t, more)))
  }

  /** Nothing that concerns t. */
  lemma SameIsolated(k: K, k': K, t: Tid)
    requires t in k.q.wait ==> t in k'.q.wait
    requires k'.mail.frozen[t] == k.mail.frozen[t] && k'.mail.waitingFor[t] == k.mail.waitingFor[t]
    requires k'.mail.inbox[t] == k.mail.inbox[t] && k'.mail.log[t] == k.mail.log[t] && k'.mail.got[t] == k.mail.got[t]
    ensures Isolated(k, k', t, [])
  {}

  lemma SendIsolated(k: K, sender: Addr, target: Addr, body: Payload, t: Tid)
    requires Partition(k.q) && !WakesFrozen(k, Alias(sender), target) && (target == Tcb(t) ==> sender != Timer)
    requires k.status == Running
    ensures Isolated(k, Send(k, sender, target, body), t, if target == Tcb(t) then [Letter(Alias(sender), body)] else [])
  {
    hide Partition, Wake;
    var l, k' := Letter(Alias(sender), body), Send(k, sender, target, body);
    PartitionMeans(k.q);
    if target == Tcb(t) && t in k.q.wait && k.mail.frozen[t] {
      if k.mail.free != [] {
        assert Letters(k.mail.inbox[t] + [Msg(k.mail.free[0], l)]) == Letters(k.mail.inbox[t]) + [l];
      }
    } else if target.Tcb? && Wakes(k, l.from, target.t) && t in k.q.wait && t != target.t {
      WakeKeeps(k.q, target.t, t);
      SameIsolated(k, k', t);
    } else if target != Tcb(t) {
      SameIsolated(k, k', t);
    }
  }

  lemma WakeKeeps(q: Queues, r: Tid, t: Tid)
    requires Partition(q) && t in q.wait && t != r
    ensures t in Wake(q, r).wait
  {
    PartitionMeans(q);
    RemoveIsMinus(q.wait, r);
  }

  lemma TerminateIsolated(k: K, x: Tid, t: Tid)
    requires Aged(k.tree)
    ensures Isolated(k, Terminate(k, x), t, [])
  {
    if Live(k.q, x) {
      KillIsolated(k, PostOrder(k.tree, x), t);
    } else {
      SameIsolated(k, Terminate(k, x), t);
    }
  }

  lemma KillIsolated(k: K, ds: seq<Tid>, t: Tid)
    ensures Isolated(k, Kill(k, ds), t, [])
  {
    if t !in ds {
      SameIsolated(k, Kill(k, ds), t);
    }
  }

  lemma MsgSendIsolated(k: K, to: Addr, body: Payload, t: Tid)
    requires Safe(k) && k.q.cur.Some? && k.status == Running
    requires !Intercepted(k, k.q.cur.value, Target(to), body) ==> !WakesFrozen(k, Alias(Tcb(k.q.cur.value)), Target(to))
    ensures var more := if Target(to) == Tcb(t) && !Intercepted(k, k.q.cur.value, Target(to), body)
                        then [Letter(Alias(Tcb(k.q.cur.value)), body)] else [];
      Releases(k, SendCall(to, body), t) || Isolated(k, MsgSend(k, to, body), t, more)
  {
    hide MailOk, PoolOk, TreeOk, Send, Terminate, SendResult;
    var a, x := Announce(k, to), k.q.cur.value;
    if !Intercepted(a, x, Target(to), body) {
      SendIsolated(a, Tcb(x), Target(to), body, t);
    } else if body == TRAPTERMINATE {
      SafeAged(k);
      TerminateIsolated(a, Target(to).t, t);
    } else if Target(to) != Tcb(t) {
      if t in k.q.wait && Target(to).t in k.q.wait { WakeKeeps(k.q, Target(to).t, t); }
      ResumeIsolated(a, Target(to).t, t);
    }
  }

  lemma ResumeIsolated(k: K, r: Tid, t: Tid)
    requires Partition(k.q) && r != t
    ensures Isolated(k, Resume(k, r), t, [])
  {
    if t in k.q.wait { WakeKeeps(k.q, r, t); }
    SameIsolated(k, Resume(k, r), t);
  }

  lemma TrapIsolated(k: K, kind: TrapKind, cause: nat, t: Tid)
    requires Safe(k) && k.status == Running && k.q.cur.Some? && k.q.cur.value != SSI
    requires !WakesFrozen(k, Tcb(k.q.cur.value), ManagerOf(k, kind, k.q.cur.value))
    ensures Isolated(k, Trap(k, kind, cause), t,
                     if ManagerOf(k, kind, k.q.cur.value) == Tcb(t) then [Letter(Tcb(k.q.cur.value), Word(cause))] else [])
  {
    hide Terminate, MailOk, SsiOk, PoolOk, Send;
    var x, m := k.q.cur.value, ManagerOf(k, kind, k.q.cur.value);
    PartitionMeans(k.q);
    SafeAged(k);
    TerminateIsolated(k, x, t);
    SendIsolated(k, Tcb(x), m, Word(cause), t);
    Frames.SendKeeps(k, Tcb(x), m, Word(cause));
  }

  lemma NotifyIsolated(k: K, from: Addr, service: nat, status: nat, t: Tid)
    requires Safe(k) && k.status == Running && !from.Tcb?
    ensures Isolated(k, Notify(k, from, service, status), t, [])
  {
    hide MailOk, PoolOk, TreeOk, Send;
    if t in k.q.wait && k.mail.frozen[t] {
      var l := Report(k, from, service, status);
      SendIsolated(Record(k, Some(l)), from, Tcb(SSI), l.body, t);
    }
  }

  lemma TimerIsolated(k: K, clk: seq<nat>, t: Tid)
    requires Safe(k) && k.status == Running && |clk| == 8
    ensures Isolated(k, TimerInterrupt(k, clk), t, [])
  {
    hide Safe, Notify;
    var c := k.(tm := Timing.Count(k.tm, clk));
    SafeFrame(k, c);
    NotifyIsolated(c, Timer, PSEUDOCLOCK_MSG, 0, t);
    SameIsolated(c, Record(c, None), t);
  }

  lemma RecvIsolated(k: K, from: Addr, t: Tid)
    requires Partition(k.q) && k.q.cur.Some?
    ensures Isolated(k, Recv(k, from), t, [])
  {
    PartitionMeans(k.q);
    if t in k.q.wait {
      SameIsolated(k, Recv(k, from), t);
    }
  }

  lemma ReplyIsolated(k: K, t: Tid)
    requires Safe(k) && k.status == Running && k.q.cur == Some(SSI) && k.ssi.pc == Sending
    ensures Isolated(k, SsiReply(k), t, if k.ssi.outbox[0].to == t then [Letter(Magic, k.ssi.outbox[0].body)] else [])
  {
    var r := k.ssi.outbox[0];
    PartitionMeans(k.q);
    MsgSendIsolated(k, Tcb(r.to), r.body, t);
  }

  lemma TerminalIsolated(k: K, dev: nat, trans: nat, recv: nat, t: Tid)
    requires Safe(k) && k.status == Running && dev < 8
    ensures Isolated(k, TerminalInterrupt(k, dev, trans, recv), t, [])
  {
    hide Safe, Notify;
    var base := KernelSpec.Devices.RegisterAddr(KernelSpec.Devices.INT_TERMINAL, dev);
    NotifyIsolated(k, Raw(base + 0x8), INTERRUPT_MSG, trans, t);
    NotifyIsolated(k, Raw(base), INTERRUPT_MSG, recv, t);
    SameIsolated(k, Record(k, None), t);
  }

  lemma SsiCallIsolated(k: K, t: Tid)
    requires Safe(k) && k.status == Running && k.q.cur == Some(SSI) && k.ssi.pc != Got
    ensures Isolated(k, SsiCall(k), t,
                     if k.ssi.pc == Sending && k.ssi.outbox[0].to == t then [Letter(Magic, k.ssi.outbox[0].body)] else [])
  {
    hide MailOk, SsiReply, Recv, LetterOk;
    if k.ssi.pc == Sending { ReplyIsolated(k, t); } else { RecvIsolated(k, Null, t); }
  }

  lemma HandleIsolated(k: K, e: Event, clk: seq<nat>, t: Tid)
    requires Safe(k) && |clk| == 8 && Enabled(k, e) && !e.SsiServes?
    ensures Aged(k.tree)
    ensures Releases(k, e, t) || Isolated(k, Handle(k, e, clk), t, SentTo(k, e, t))
  {
    hide Safe, MsgSend, Recv, Trap, SsiCall, TimerInterrupt, DeviceInterrupt, TerminalInterrupt, Isolated;
    SafeAged(k);
    var k' := Enter(k, clk);
    SafeFrame(k, k');
    SafePartition(k);
    IsolatedFrom(k, k', Handle(k, e, clk), t, SentTo(k, e, t));
    match e
    case SendCall(to, body) =>
      AnswerIs(k, to, body);
      MsgSendIsolated(k', to, body, t);
    case RecvCall(from) => RecvIsolated(k', from, t);
    case TrapRaised(kind, cause) => TrapIsolated(k', kind, cause, t);
    case SsiCalls => SsiCallIsolated(k', t);
    case TimerIrq => TimerIsolated(k', clk, t);
    case DeviceIrq(line, dev, status) => DeviceIsolated(k', line, dev, status, t);
    case TerminalIrq(dev, trans, recv) => TerminalIsolated(k', dev, trans, recv, t);
    case NoLineIrq => SameIsolated(k', Record(k', None), t);
  }

  lemma DeviceIsolated(k: K, line: nat, dev: nat, status: nat, t: Tid)
    requires Safe(k) && k.status == Running && dev < 8
    requires KernelSpec.Devices.INT_LOWEST <= line < KernelSpec.Devices.INT_TERMINAL
    ensures Isolated(k, DeviceInterrupt(k, line, dev, status), t, [])
  {
    NotifyIsolated(k, Raw(KernelSpec.Devices.RegisterAddr(line, dev)), INTERRUPT_MSG, status, t);
  }

  /** The clock plays no part. */
  lemma IsolatedFrom(k: K, k': K, h: K, t: Tid, more: seq<Letter>)
    requires k'.q == k.q && k'.mail == k.mail
    ensures Isolated(k', h, t, more) == Isolated(k, h, t, more)
  {}

  lemma SpecManagerIsolated(k: K, kind: TrapKind, x: Tid, m: Addr, t: Tid)
    requires Aged(k.tree)
    ensures Isolated(k, SpecManager(k, kind, x, m), t, [])
  {
    hide Terminate;
    TerminateIsolated(k, x, t);
    SameIsolated(k, SetManager(k, kind, x, m), t);
  }

  lemma WaitForIoIsolated(k: K, x: Tid, arg: Addr, t: Tid)
    requires Aged(k.tree)
    ensures Isolated(k, WaitForIo(k, x, arg), t, [])
  {
    hide Terminate, KernelSpec.Devices.RestIndex, KernelSpec.Devices.OnWait;
    TerminateIsolated(k, x, t);
    SameIsolated(k, k, t);
  }

  lemma ServiceIsolated(k: K, x: Tid, service: nat, arg: Addr, t: Tid)
    requires Structure(k) && (Creates(service) ==> k.q.free != [])
    ensures Isolated(k, Service(k, x, service, arg), t, [])
  {
    hide Terminate, Brother, Son, SpecManager, WaitForIo, Partition, PoolOk;
    SameIsolated(k, k, t);
    if Creates(service) {
      SpawnIsolated(k, x, t);
    } else if service == TERMINATE {
      TerminateIsolated(k, x, t);
    } else if service == SPECPRGMGR {
      SpecManagerIsolated(k, PgmTrap, x, arg, t);
    } else if service == SPECTLBMGR {
      SpecManagerIsolated(k, TlbTrap, x, arg, t);
    } else if service == SPECSYSMGR {
      SpecManagerIsolated(k, SysBp, x, arg, t);
    } else if service == WAITFORIO {
      WaitForIoIsolated(k, x, arg, t);
    }
  }

  lemma SpawnIsolated(k: K, x: Tid, t: Tid)
    requires Structure(k) && k.q.free != []
    ensures Isolated(k, Brother(k, x), t, []) && Isolated(k, Son(k, x), t, [])
  {
    hide PoolOk, TreeOk;
    PartitionMeans(k.q);
    assert k.q.free[0] in k.q.free;
    if t in k.q.wait {
      SameIsolated(k, Brother(k, x), t);
      SameIsolated(k, Son(k, x), t);
    }
  }

  lemma ServeIsolated(k: K, t: Tid)
    requires Safe(k) && Enabled(k, SsiServes)
    ensures Aged(k.tree)
    ensures Isolated(k, SsiServe(k), t, [])
  {
    hide Service, MailOk, TrapsOk, PoolOk, Partition, KernelSpec.Devices.RestIndex, KernelSpec.Devices.OnInterrupt;
    hide ReadLetter;
    var l := ReadLetter(k);
    SameIsolated(k, k, t);
    if l.body.Req? && Queued(k.q, l.from) {
      ServiceIsolated(k, l.from.t, l.body.service, l.body.arg, t);
    }
  }

  lemma StepIsolated(k: K, e: Event, clk: seq<nat>, k': K, t: Tid)
    requires Safe(k) && Next(k, e, clk, k') && !Releases(k, e, t)
    ensures Isolated(k, k', t, SentTo(k, e, t))
  {
    hide Safe, Handle, Scheduler, SsiServe, Isolated, Enabled;
    if e.SsiServes? {
      ServeIsolated(k, t);
    } else {
      HandleIsolated(k, e, clk, t);
      SchedulerIsolated(k, Handle(k, e, clk), clk, t, SentTo(k, e, t));
    }
  }

  lemma SchedulerIsolated(k: K, h: K, clk: seq<nat>, t: Tid, more: seq<Letter>)
    requires |clk| == 8 && Isolated(k, h, t, more)
    ensures Isolated(k, Scheduler(h, clk), t, more)
  {}

  /** Trap isolation: in every step of every run a frozen thread stays frozen on its manager, unless it
      is terminated or the manager itself sends TRAPCONTINUE. */
  lemma FrozenUntilManagerAnswers(r: Run, i: nat, t: Tid)
    requires IsRun(r) && i < |r.events|
    requires t in r.states[i].q.wait && r.states[i].mail.frozen[t] && !Releases(r.states[i], r.events[i], t)
    ensures t in r.states[i + 1].q.free || StillFrozen(r.states[i], r.states[i + 1], t)
  {
    Reachable(r, i);
    RunStep(r, i);
    StepIsolated(r.states[i], r.events[i], r.clocks[i], r.states[i + 1], t);
  }

  /** While it is frozen, whatever anyone sends to it in a step of a run is queued at the end of its inbox, nothing
      else is, and nothing is delivered. */
  lemma FrozenThreadQueuesLetters(r: Run, i: nat, t: Tid)
    requires IsRun(r) && i < |r.events| && r.states[i + 1].status == Running
    requires t in r.states[i].q.wait && r.states[i].mail.frozen[t] && !Releases(r.states[i], r.events[i], t)
    ensures Enabled(r.states[i], r.events[i])
    ensures t in r.states[i + 1].q.free || QueuedUp(r.states[i].mail, r.states[i + 1].mail, t, SentTo(r.states[i], r.events[i], t))
  {
    Reachable(r, i);
    RunStep(r, i);
    StepIsolated(r.states[i], r.events[i], r.clocks[i], r.states[i + 1], t);
  }
}
