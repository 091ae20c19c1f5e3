/** What a thread that waits in MsgRecv gets, and when a handler panics. */
module Deliveries {
  import opened Types
  import opened Sequences
  import opened ProcessTree
  import opened ThreadQueues
  import opened Mailboxes
  import opened KernelSpec
  import opened Invariants
  import opened Runs
  import opened SsiRuns
  import opened Theorems
  import opened Fairness
  import opened Effects
  import opened ServiceRuns
  import Timing
  import Devices
  import Frames

  // ----- waiting in MsgRecv -----

  /** t is blocked in MsgRecv. */
  ghost predicate Blocked(k: K, t: Tid) {
    t in k.q.wait && !k.mail.frozen[t]
  }

  /** MsgRecv returns this letter to t, in v0 and behind the reply pointer, and t can run. */
  ghost predicate Returned(k: K, k': K, t: Tid, l: Letter) {
    && (k.mail.waitingFor[t] == Null || k.mail.waitingFor[t] == l.from)
    && k'.mail.v0[t] == l.from && k'.mail.val[t] == l.body && k'.mail.got[t] == k.mail.got[t] + [l]
    && k'.mail.log[t] == k.mail.log[t] + [l] && k'.mail.inbox[t] == k.mail.inbox[t]
    && k'.mail.waitingFor[t] == Magic && t !in k'.q.wait
  }

  /** t waits as before; what is sent to it is queued. */
  ghost predicate WaitsOn(k: K, k': K, t: Tid) {
    && Blocked(k', t) && k'.mail.waitingFor[t] == k.mail.waitingFor[t]
    && k'.mail.v0[t] == k.mail.v0[t] && k'.mail.val[t] == k.mail.val[t] && k'.mail.got[t] == k.mail.got[t]
  }

  ghost predicate StaysOrReturns(k: K, k': K, t: Tid) {
    k.status == Running && k'.status == Running && Blocked(k, t) ==>
      t in k'.q.free || WaitsOn(k, k', t) || exists l :: Returned(k, k', t, l)
  }

  lemma NothingForIt(k: K, k': K, t: Tid)
    requires t in k.q.wait ==> t in k'.q.wait
    requires k'.mail.frozen[t] == k.mail.frozen[t] && k'.mail.waitingFor[t] == k.mail.waitingFor[t]
    requires k'.mail.v0[t] == k.mail.v0[t] && k'.mail.val[t] == k.mail.val[t] && k'.mail.got[t] == k.mail.got[t]
    ensures StaysOrReturns(k, k', t)
  {}

  lemma SendReturnsTo(k: K, sender: Addr, target: Addr, body: Payload, t: Tid)
    requires Partition(k.q)
    ensures StaysOrReturns(k, Send(k, sender, target, body), t)
  {
    hide Partition, Wake;
    var l, k' := Letter(Alias(sender), body), Send(k, sender, target, body);
    PartitionMeans(k.q);
    if t in k.q.wait {
      if target.Tcb? && Wakes(k, l.from, target.t) {
        if target.t == t {
          WokenLeaves(k.q, t);
          assert Blocked(k, t) ==> Returned(k, k', t, l);
        } else {
          WakeKeeps(k.q, target.t, t);
          NothingForIt(k, k', t);
        }
      } else {
        NothingForIt(k, k', t);
      }
    }
  }

  lemma WokenLeaves(q: Queues, t: Tid)
    requires Partition(q) && t in q.wait
    ensures t !in Wake(q, t).wait
  {
    PartitionMeans(q);
    RemoveIsMinus(q.wait, t);
  }

  lemma TerminateReturnsTo(k: K, x: Tid, t: Tid)
    requires Aged(k.tree)
    ensures StaysOrReturns(k, Terminate(k, x), t)
  {
    var ds := PostOrder(k.tree, x);
    if Live(k.q, x) && t !in ds {
      NothingForIt(k, Kill(k, ds), t);
    }
  }

  lemma MsgSendReturnsTo(k: K, to: Addr, body: Payload, t: Tid)
    requires Safe(k) && k.q.cur.Some? && SendAllowed(k, k.q.cur.value, to, body)
    requires !Releases(k, SendCall(to, body), t)
    ensures Aged(k.tree) && StaysOrReturns(k, MsgSend(k, to, body), t)
  {
    hide Safe, Send, Terminate, SendResult, Wake;
    SafeAged(k);
    SafePartition(k);
    var a, x := Announce(k, to), k.q.cur.value;
    if !Intercepted(a, x, Target(to), body) {
      DeliverReturnsTo(a, Target(to), body, t);
      SameForT(k, a, Deliver(a, x, Target(to), body), Deliver(a, x, Target(to), body), t);
    } else if body == TRAPTERMINATE {
      TerminateReturnsTo(a, Target(to).t, t);
    } else {
      if t in k.q.wait { WakeKeeps(k.q, Target(to).t, t); }
      NothingForIt(a, Resume(a, Target(to).t), t);
    }
  }

  lemma DeliverReturnsTo(k: K, target: Addr, body: Payload, t: Tid)
    requires Partition(k.q) && k.q.cur.Some?
    ensures StaysOrReturns(k, Deliver(k, k.q.cur.value, target, body), t)
  {
    hide Send, Partition;
    PartitionMeans(k.q);
    SendReturnsTo(k, Tcb(k.q.cur.value), target, body, t);
    var k' := Send(k, Tcb(k.q.cur.value), target, body);
    if Blocked(k, t) && k'.status == Running {
      assert t != k.q.cur.value;
      if l :| Returned(k, k', t, l) {
        assert Returned(k, Deliver(k, k.q.cur.value, target, body), t, l);
      }
    }
  }

  lemma RecvReturnsTo(k: K, from: Addr, t: Tid)
    requires Partition(k.q) && k.q.cur.Some?
    ensures StaysOrReturns(k, Recv(k, from), t)
  {
    hide Partition;
    PartitionMeans(k.q);
    if Blocked(k, t) { NothingForIt(k, Recv(k, from), t); }
  }

  lemma TrapReturnsTo(k: K, kind: TrapKind, cause: nat, t: Tid)
    requires Partition(k.q) && k.q.cur.Some? && Aged(k.tree)
    ensures StaysOrReturns(k, Trap(k, kind, cause), t)
  {
    hide Send, Terminate, Partition;
    var x := k.q.cur.value;
    var m := ManagerOf(k, kind, x);
    PartitionMeans(k.q);
    TerminateReturnsTo(k, x, t);
    SendReturnsTo(k, Tcb(x), m, Word(cause), t);
    Frames.SendKeeps(k, Tcb(x), m, Word(cause));
    var s := Send(k, Tcb(x), m, Word(cause));
    if m != Null && Blocked(k, t) && s.status == Running {
      BlockKeepsOthers(s, m, t);
      if l :| Returned(k, s, t, l) {
        assert Returned(k, Block(s, m, true), t, l);
      }
    }
  }

  lemma BlockKeepsOthers(k: K, a: Addr, t: Tid)
    requires k.q.cur.Some? && k.q.cur.value != t
    ensures var r := Block(k, a, true);
      && (t in r.q.wait <==> t in k.q.wait) && r.q.free == k.q.free && r.mail.frozen[t] == k.mail.frozen[t]
      && r.mail.waitingFor[t] == k.mail.waitingFor[t] && r.mail.v0 == k.mail.v0 && r.mail.val == k.mail.val
      && r.mail.got == k.mail.got && r.mail.log == k.mail.log && r.mail.inbox == k.mail.inbox
  {}

  lemma NotifyReturnsTo(k: K, from: Addr, service: nat, status: nat, t: Tid)
    requires Partition(k.q)
    ensures StaysOrReturns(k, Notify(k, from, service, status), t)
  {
    hide Send, Partition;
    var l := Report(k, from, service, status);
    SendReturnsTo(Record(k, Some(l)), from, Tcb(SSI), l.body, t);
    RecordFirst(k, Some(l), Notify(k, from, service, status), t);
  }

  lemma RecordFirst(k: K, l: Option<Letter>, k': K, t: Tid)
    requires StaysOrReturns(Record(k, l), k', t)
    ensures StaysOrReturns(k, k', t)
  {
    if k.status == Running && k'.status == Running && Blocked(k, t) && !(t in k'.q.free) && !WaitsOn(k, k', t) {
      var x :| Returned(Record(k, l), k', t, x);
      assert Returned(k, k', t, x);
    }
  }

  lemma TimerReturnsTo(k: K, clk: seq<nat>, t: Tid)
    requires Partition(k.q) && |clk| == 8
    ensures StaysOrReturns(k, TimerInterrupt(k, clk), t)
  {
    hide Notify, Partition;
    var c := k.(tm := Timing.Count(k.tm, clk));
    PartitionMeans(k.q);
    var n := if Timing.TickDue(c.tm) then Notify(c, Timer, PSEUDOCLOCK_MSG, 0) else Record(c, None);
    NotifyReturnsTo(c, Timer, PSEUDOCLOCK_MSG, 0, t);
    NothingForIt(c, Record(c, None), t);
    SameForT(k, c, n, TimerInterrupt(k, clk), t);
  }

  /** Only the queues and the mail matter, and not who is ready. */
  lemma SameForT(j: K, k: K, k': K, j': K, t: Tid)
    requires j.q == k.q && j.mail == k.mail && j.status == k.status
    requires j'.q.wait == k'.q.wait && j'.q.free == k'.q.free && j'.mail == k'.mail
    requires j'.status == Running ==> k'.status == Running
    ensures StaysOrReturns(k, k', t) ==> StaysOrReturns(j, j', t)
  {
    if StaysOrReturns(k, k', t) {
      if l :| Returned(k, k', t, l) {
        assert Returned(j, j', t, l);
      }
    }
  }

  lemma TerminalReturnsTo(k: K, dev: nat, trans: nat, recv: nat, t: Tid)
    requires Partition(k.q) && dev < 8
    ensures StaysOrReturns(k, TerminalInterrupt(k, dev, trans, recv), t)
  {
    hide Notify, Partition;
    var base := Devices.RegisterAddr(Devices.INT_TERMINAL, dev);
    NotifyReturnsTo(k, Raw(base + 0x8), INTERRUPT_MSG, trans, t);
    NotifyReturnsTo(k, Raw(base), INTERRUPT_MSG, recv, t);
    NothingForIt(k, Record(k, None), t);
  }

  lemma SsiCallReturnsTo(k: K, t: Tid)
    requires Safe(k) && k.q.cur == Some(SSI) && k.ssi.pc != Got
    ensures Aged(k.tree) && StaysOrReturns(k, SsiCall(k), t)
  {
    hide MailOk, PoolOk, TreeOk, LetterOk, Partition, Recv, Deliver;
    SafeAged(k);
    if k.ssi.pc == Sending {
      DeliverReturnsTo(k, Tcb(k.ssi.outbox[0].to), k.ssi.outbox[0].body, t);
      SameForT(k, k, Deliver(k, SSI, Tcb(k.ssi.outbox[0].to), k.ssi.outbox[0].body), SsiCall(k), t);
    } else {
      RecvReturnsTo(k, Null, t);
      SameForT(k, k, Recv(k, Null), SsiCall(k), t);
    }
  }

  lemma CallReturnsTo(k: K, e: Event, clk: seq<nat>, t: Tid)
    requires Safe(k) && |clk| == 8 && Enabled(k, e) && !e.SsiServes? && !IsIrq(e) && !Releases(k, e, t)
    ensures Aged(k.tree) && StaysOrReturns(k, Handle(k, e, clk), t)
  {
    hide Safe, Partition, MsgSend, Recv, Trap, SsiCall, StaysOrReturns, LetterOk;
    SafeAged(k);
    var k' := Enter(k, clk);
    SafeFrame(k, k');
    SafePartition(k);
    SameForT(k, k', Handle(k, e, clk), Handle(k, e, clk), t);
    match e
    case SendCall(to, body) => MsgSendReturnsTo(k', to, body, t);
    case RecvCall(from) => RecvReturnsTo(k', from, t);
    case TrapRaised(kind, cause) => TrapReturnsTo(k', kind, cause, t);
    case SsiCalls => SsiCallReturnsTo(k', t);
  }

  lemma IrqReturnsTo(k: K, e: Event, clk: seq<nat>, t: Tid)
    requires Safe(k) && |clk| == 8 && Enabled(k, e) && IsIrq(e)
    ensures Aged(k.tree) && StaysOrReturns(k, Handle(k, e, clk), t)
  {
    hide Safe, Partition, TimerInterrupt, TerminalInterrupt, Notify, StaysOrReturns;
    SafeAged(k);
    var k' := Enter(k, clk);
    SafePartition(k);
    SameForT(k, k', Handle(k, e, clk), Handle(k, e, clk), t);
    match e
    case TimerIrq => TimerReturnsTo(k', clk, t);
    case DeviceIrq(line, dev, status) => NotifyReturnsTo(k', Raw(Devices.RegisterAddr(line, dev)), INTERRUPT_MSG, status, t);
    case TerminalIrq(dev, trans, recv) => TerminalReturnsTo(k', dev, trans, recv, t);
    case NoLineIrq => NothingForIt(k', Record(k', None), t);
  }

  lemma ServeReturnsTo(k: K, t: Tid)
    requires Safe(k) && Enabled(k, SsiServes)
    ensures Aged(k.tree) && StaysOrReturns(k, SsiServe(k), t)
  {
    hide Safe, ReadLetter, Readable, Devices.RestIndex, SsiServe, Service, StaysOrReturns;
    SafeAged(k);
    var l := HeldLetter(k);
    if l.body.Req? && Queued(k.q, l.from) {
      ServesIt(k);
      ServiceReturnsTo(k, l.from.t, l.body.service, l.body.arg, t);
    } else {
      ClientsOnly(k);
      NothingServed(k);
      NothingForIt(k, SsiServe(k), t);
    }
  }

  lemma ServesIt(k: K)
    requires Aged(k.tree) && Enabled(k, SsiServes) && HeldLetter(k).body.Req? && Queued(k.q, HeldLetter(k).from)
    ensures var l := HeldLetter(k); SsiServe(k) == Service(k, l.from.t, l.body.service, l.body.arg)
  {
    hide ReadLetter, Service;
  }

  lemma ServiceReturnsTo(k: K, x: Tid, service: nat, arg: Addr, t: Tid)
    requires Safe(k) && Live(k.q, x) && k.status == Running && (Creates(service) ==> k.q.free != [])
    ensures Aged(k.tree) && StaysOrReturns(k, Service(k, x, service, arg), t)
  {
    hide Safe, Terminate, Brother, Son, SpecManager, WaitForIo, StaysOrReturns;
    SafeAged(k);
    NothingForIt(k, k, t);
    if Creates(service) {
      CreateReturnsTo(k, x, service, arg, t);
    } else if service == TERMINATE {
      DeathReturnsTo(k, x, t);
    } else if service == SPECPRGMGR {
      SpecReturnsTo(k, PgmTrap, x, arg, t);
    } else if service == SPECTLBMGR {
      SpecReturnsTo(k, TlbTrap, x, arg, t);
    } else if service == SPECSYSMGR {
      SpecReturnsTo(k, SysBp, x, arg, t);
    } else if service == WAITFORIO {
      IoReturnsTo(k, x, arg, t);
    } else {
      SameForT(k, k, k, Service(k, x, service, arg), t);
    }
  }

  lemma CreateReturnsTo(k: K, x: Tid, service: nat, arg: Addr, t: Tid)
    requires Safe(k) && Live(k.q, x) && Creates(service) && k.q.free != []
    ensures Aged(k.tree) && StaysOrReturns(k, Service(k, x, service, arg), t)
  {
    hide Safe, Service, Partition;
    if service == CREATEBROTHER { BrotherIsBorn(k, x, arg); } else { SonIsBorn(k, x, arg); }
    SafePartition(k);
    PartitionMeans(k.q);
    assert k.q.free[0] in k.q.free;
    if t in k.q.wait {
      assert SameThread(k, Service(k, x, service, arg), t);
      NothingForIt(k, Service(k, x, service, arg), t);
    }
  }

  lemma DeathReturnsTo(k: K, x: Tid, t: Tid)
    requires Aged(k.tree)
    ensures StaysOrReturns(k, Settle(Terminate(k, x), []), t)
  {
    hide Terminate;
    TerminateReturnsTo(k, x, t);
    SameForT(k, k, Terminate(k, x), Settle(Terminate(k, x), []), t);
  }

  lemma SpecReturnsTo(k: K, kind: TrapKind, x: Tid, m: Addr, t: Tid)
    requires Aged(k.tree)
    ensures StaysOrReturns(k, SpecManager(k, kind, x, m), t)
  {
    hide Terminate, SetManager;
    DeathReturnsTo(k, x, t);
    Frames.SetManagerKeeps(k, kind, x, m);
    NothingForIt(k, Settle(SetManager(k, kind, x, m), [Reply(x, Word(0))]), t);
  }

  lemma IoReturnsTo(k: K, x: Tid, arg: Addr, t: Tid)
    requires Aged(k.tree)
    ensures StaysOrReturns(k, WaitForIo(k, x, arg), t)
  {
    hide Terminate, Devices.RestIndex, Devices.OnWait, StaysOrReturns;
    DeathReturnsTo(k, x, t);
    NothingForIt(k, k, t);
    if arg.Raw? && Devices.RestIndex(arg.w) != -1 {
      SameForT(k, k, k, WaitForIo(k, x, arg), t);
    }
  }

  /** A thread that is blocked in MsgRecv stays so until it dies or MsgRecv returns, to it alone, a letter of a kind that it
      waits for, the one that is sent to it in that very step; unless TRAPCONTINUE comes from a manager that it waits for. */
  lemma MsgRecvReturns(r: Run, i: nat, t: Tid)
    requires IsRun(r) && i < |r.events| && Blocked(r.states[i], t) && r.states[i + 1].status == Running
    requires !Releases(r.states[i], r.events[i], t)
    ensures |r.clocks[i]| == 8 && Enabled(r.states[i], r.events[i])
    ensures var k, k', ls := r.states[i], r.states[i + 1], AllSentTo(r.states[i], r.events[i], r.clocks[i], t);
      if t in k'.q.wait then WaitsOn(k, k', t) else t in k'.q.free || (|ls| == 1 && Returned(k, k', t, ls[0]))
  {
    hide Step, Safe, Enabled, Handle, Scheduler, SsiServe, Next, AllSentTo, Returned, WaitsOn, Releases;
    RanBefore(r, i);
    EverySendAccepted(r, i, t);
    var k, e, clk, k' := r.states[i], r.events[i], r.clocks[i], r.states[i + 1];
    if e.SsiServes? {
      ServeReturnsTo(k, t);
      StepIsServe(k, clk);
    } else {
      if IsIrq(e) { IrqReturnsTo(k, e, clk, t); } else { CallReturnsTo(k, e, clk, t); }
      StepIsHandle(k, e, clk);
      ScheduledReturnsTo(k, Handle(k, e, clk), clk, t);
    }
    NotBoth(r, i, t);
    EitherWay(k, k', t);
    if l :| Returned(k, k', t, l) {
      OneLetter(k, k', t, l, AllSentTo(k, e, clk, t));
    }
  }

  lemma ScheduledReturnsTo(k: K, h: K, clk: seq<nat>, t: Tid)
    requires |clk| == 8 && StaysOrReturns(k, h, t)
    ensures StaysOrReturns(k, Scheduler(h, clk), t)
  {
    hide Scheduler, StaysOrReturns;
    Frames.SchedulerKeeps(h, clk);
    SameForT(k, k, h, Scheduler(h, clk), t);
  }

  lemma NotBoth(r: Run, i: nat, t: Tid)
    requires IsRun(r) && i < |r.events|
    ensures t in r.states[i].q.wait ==> Live(r.states[i].q, t)
    ensures t in r.states[i + 1].q.wait ==> t !in r.states[i + 1].q.free
  {
    hide Safe, Partition, Next;
    Reachable(r, i + 1);
    SafePartition(r.states[i + 1]);
    PartitionMeans(r.states[i + 1].q);
  }

  lemma EitherWay(k: K, k': K, t: Tid)
    ensures forall l :: Returned(k, k', t, l) ==> t !in k'.q.wait
    ensures WaitsOn(k, k', t) ==> t in k'.q.wait
  {}

  lemma OneLetter(k: K, k': K, t: Tid, l: Letter, ls: seq<Letter>)
    requires Returned(k, k', t, l) && k'.mail.log[t] == k.mail.log[t] + ls
    ensures ls == [l]
  {
    var n := |k.mail.log[t]|;
    assert (k.mail.log[t] + ls)[n..] == ls && (k.mail.log[t] + [l])[n..] == [l];
  }

  /** That exception: the kernel does not look whether the thread has trapped. A thread that is only waiting for a message
      from a manager is made ready by its TRAPCONTINUE, and MsgRecv returns to it with nothing. */
  lemma LetGoWithNothing(r: Run, i: nat, t: Tid)
    requires IsRun(r) && i < |r.events| && Blocked(r.states[i], t) && r.states[i + 1].status == Running
    requires Releases(r.states[i], r.events[i], t)
    ensures var k, k' := r.states[i], r.states[i + 1];
      && t in k'.q.ready && k'.mail.got[t] == k.mail.got[t] && k'.mail.inbox[t] == k.mail.inbox[t]
      && k'.mail.v0[t] == k.mail.v0[t] && k'.mail.val[t] == k.mail.val[t]
  {
    hide Step, Safe, Handle, Scheduler, Enabled;
    RanBefore(r, i);
    AnswersObeyed(r, i);
    var k, e, clk := r.states[i], r.events[i], r.clocks[i];
    ResumeHandled(k, e, clk, t);
    StepIsHandle(k, e, clk);
    Frames.SchedulerKeeps(Handle(k, e, clk), clk);
  }

  lemma ResumeHandled(k: K, e: Event, clk: seq<nat>, t: Tid)
    requires Safe(k) && |clk| == 8 && Enabled(k, e) && Releases(k, e, t)
    ensures Aged(k.tree)
    ensures var h := Handle(k, e, clk);
      h.mail.got == k.mail.got && h.mail.inbox == k.mail.inbox && h.mail.v0 == k.mail.v0 && h.mail.val == k.mail.val
  {
    hide Safe;
    SafeAged(k);
    AnswerIs(k, e.to, e.body);
  }

  // ----- when a handler panics -----

  /** y waits in MsgRecv for a message from this sender. */
  ghost predicate Expects(k: K, y: Tid, from: Addr) {
    Blocked(k, y) && (k.mail.waitingFor[y] == Null || k.mail.waitingFor[y] == from)
  }

  lemma WakesIff(k: K, from: Addr, y: Tid)
    requires Safe(k) && (y in k.q.wait && k.mail.frozen[y] ==> k.mail.waitingFor[y] != from)
    ensures Wakes(k, from, y) <==> Expects(k, y, from)
  {
    hide MailOk, SsiOk, PoolOk, TreeOk, Partition;
    PartitionMeans(k.q);
  }

  /** A message that must be queued and cannot be. */
  ghost predicate NoRoom(k: K, target: Addr, from: Addr) {
    k.mail.free == [] && target.Tcb? && Live(k.q, target.t) && !Expects(k, target.t, from)
  }

  lemma SendPanics(k: K, sender: Addr, target: Addr, body: Payload)
    requires Safe(k) && k.status == Running && !WakesFrozen(k, Alias(sender), target)
    ensures Send(k, sender, target, body).status == if NoRoom(k, target, Alias(sender)) then Panicked else Running
  {
    hide Safe;
    if target.Tcb? && !(target.t in k.q.wait && k.mail.frozen[target.t] && k.mail.waitingFor[target.t] == Alias(sender)) {
      WakesIff(k, Alias(sender), target.t);
    }
    if target.Tcb? && target.t in k.q.wait {
      WaitsOnly(k, target.t);
    }
  }

  lemma WaitsOnly(k: K, t: Tid)
    requires Safe(k) && t in k.q.wait
    ensures t !in k.q.ready && k.q.cur != Some(t)
  {
    hide MailOk, SsiOk, PoolOk, TreeOk, TrapsOk;
    PartitionMeans(k.q);
  }

  /** Some letter of this step must be queued and cannot be. */
  ghost predicate PoolExhausted(k: K, e: Event, clk: seq<nat>)
    requires |clk| == 8 && Enabled(k, e)
  {
    k.mail.free == [] && exists y: Tid :: Live(k.q, y) && AllSentTo(k, e, clk, y) != [] && !Expects(k, y, AllSentTo(k, e, clk, y)[0].from)
  }

  /** All letters of a step go to one receiver, or there are none. */
  lemma OneTarget(k: K, e: Event, clk: seq<nat>, target: Addr, l: Letter)
    requires |clk| == 8 && Enabled(k, e)
    requires forall y: Tid :: AllSentTo(k, e, clk, y) == if target == Tcb(y) then [l] else []
    ensures PoolExhausted(k, e, clk) <==> NoRoom(k, target, l.from)
  {
    hide Enabled, AllSentTo, Expects;
    if NoRoom(k, target, l.from) {
      assert AllSentTo(k, e, clk, target.t) == [l];
    }
  }

  /** The trap manager kills a thread that is not there any more. */
  predicate KillsNobody(k: K, e: Event) {
    TrapAnswer(k, e) && e.body == TRAPTERMINATE && !Live(k.q, e.to.t)
  }

  ghost predicate StatusIs(k: K, e: Event, clk: seq<nat>)
    requires |clk| == 8 && Aged(k.tree) && Enabled(k, e) && !e.SsiServes?
  {
    Handle(k, e, clk).status == if PoolExhausted(k, e, clk) || KillsNobody(k, e) then Panicked else Running
  }

  lemma SendStatus(k: K, to: Addr, body: Payload, clk: seq<nat>)
    requires Safe(k) && |clk| == 8 && Enabled(k, SendCall(to, body)) && !TrapAnswer(k, SendCall(to, body))
    ensures Aged(k.tree) && StatusIs(k, SendCall(to, body), clk)
  {
    hide Safe, Send, PoolExhausted, NoRoom;
    SafeAged(k);
    AnswerIs(k, to, body);
    var a, t := Announce(Enter(k, clk), to), k.q.cur.value;
    SafeFrame(k, a);
    SendPanics(a, Tcb(t), Target(to), body);
    SameRoom(k, a, Target(to), Tcb(t));
    OneTarget(k, SendCall(to, body), clk, Target(to), Letter(Tcb(t), body));
  }

  lemma SameRoom(k: K, k': K, target: Addr, from: Addr)
    requires k'.q == k.q && k'.mail == k.mail
    ensures NoRoom(k', target, from) == NoRoom(k, target, from)
  {}

  lemma AnswerStatus(k: K, e: Event, clk: seq<nat>)
    requires Safe(k) && |clk| == 8 && Enabled(k, e) && TrapAnswer(k, e)
    ensures Aged(k.tree) && StatusIs(k, e, clk)
  {
    hide Safe, Handle, FreedSubtree;
    AnswerHandled(k, e, clk);
  }

  lemma TrapStatus(k: K, kind: TrapKind, cause: nat, clk: seq<nat>)
    requires Safe(k) && |clk| == 8 && Enabled(k, TrapRaised(kind, cause))
    ensures Aged(k.tree) && StatusIs(k, TrapRaised(kind, cause), clk)
  {
    hide Safe, Send, Terminate, PoolExhausted, NoRoom, FreedSubtree;
    SafeAged(k);
    var k', t := Enter(k, clk), k.q.cur.value;
    var m := ManagerOf(k, kind, t);
    SafeFrame(k, k');
    OneTarget(k, TrapRaised(kind, cause), clk, m, Letter(Tcb(t), Word(cause)));
    SameRoom(k, k', m, Tcb(t));
    if m == Null {
      TerminateFrees(k', t);
      NobodyToSend(k, m, Tcb(t));
    } else {
      SendPanics(k', Tcb(t), m, Word(cause));
    }
  }

  lemma NobodyToSend(k: K, target: Addr, from: Addr)
    requires !target.Tcb?
    ensures !NoRoom(k, target, from)
  {}

  lemma ReplyStatus(k: K, clk: seq<nat>)
    requires Safe(k) && |clk| == 8 && Enabled(k, SsiCalls)
    ensures Aged(k.tree) && StatusIs(k, SsiCalls, clk)
  {
    hide Safe, Send, PoolExhausted, NoRoom;
    SafeAged(k);
    SsiWaited(k);
    var k' := Enter(k, clk);
    SafeFrame(k, k');
    if k.ssi.pc == Sending {
      var a := k.ssi.outbox[0];
      SendPanics(k', Tcb(SSI), Tcb(a.to), a.body);
      SameRoom(k, k', Tcb(a.to), Magic);
      OneTarget(k, SsiCalls, clk, Tcb(a.to), Letter(Magic, a.body));
    } else {
      NobodyToSend(k, Null, Null);
      OneTarget(k, SsiCalls, clk, Null, Letter(Null, Word(0)));
    }
  }

  /** The SSI is nobody's trap manager, and nobody waits for it frozen; it answers somebody else. */
  lemma SsiWaited(k: K)
    requires Safe(k)
    ensures Tcb(SSI) !in k.traps.managers
    ensures forall t: Tid :: t in k.q.wait && k.mail.frozen[t] ==> k.mail.waitingFor[t].Tcb?
    ensures k.ssi.pc == Sending && k.ssi.outbox != [] ==> k.ssi.outbox[0].to != SSI
  {}

  lemma NotifyStatus(k: K, from: Addr, service: nat, status: nat)
    requires Safe(k) && k.status == Running && !from.Tcb? && status < U32
    requires service == PSEUDOCLOCK_MSG || service == INTERRUPT_MSG
    ensures Notify(k, from, service, status).status == if NoRoom(k, Tcb(SSI), from) then Panicked else Running
  {
    hide Safe, Send, NoRoom;
    var l := Report(k, from, service, status);
    RecordSafe(k, Some(l));
    SsiThere(k);
    SendPanics(Record(k, Some(l)), from, Tcb(SSI), l.body);
    SameRoom(k, Record(k, Some(l)), Tcb(SSI), from);
  }

  lemma IrqStatus(k: K, e: Event, clk: seq<nat>)
    requires Safe(k) && |clk| == 8 && Enabled(k, e) && IsIrq(e)
    ensures Aged(k.tree) && StatusIs(k, e, clk)
  {
    hide Safe, Notify, TimerInterrupt, TerminalInterrupt, PoolExhausted, NoRoom, Devices.RegisterAddr;
    SafeAged(k);
    var k' := Enter(k, clk);
    SafeFrame(k, k');
    var l := Reported(k, e, clk);
    if l.Some? {
      SameRoom(k, k', Tcb(SSI), l.value.from);
      OneTarget(k, e, clk, Tcb(SSI), l.value);
    } else {
      NobodyToSend(k, Null, Null);
      OneTarget(k, e, clk, Null, Letter(Null, Word(0)));
    }
    match e
    case TimerIrq => TimerStatus(k', clk);
    case DeviceIrq(line, dev, status) => NotifyStatus(k', Raw(Devices.RegisterAddr(line, dev)), INTERRUPT_MSG, status);
    case TerminalIrq(dev, trans, recv) => TerminalStatus(k', dev, trans, recv);
    case NoLineIrq =>
  }

  lemma TimerStatus(k: K, clk: seq<nat>)
    requires Safe(k) && k.status == Running && |clk| == 8
    ensures TimerInterrupt(k, clk).status ==
      if Timing.TickDue(Timing.Count(k.tm, clk)) && NoRoom(k, Tcb(SSI), Timer) then Panicked else Running
  {
    hide Safe, Notify, NoRoom;
    var c := k.(tm := Timing.Count(k.tm, clk));
    SafeFrame(k, c);
    SameRoom(k, c, Tcb(SSI), Timer);
    NotifyStatus(c, Timer, PSEUDOCLOCK_MSG, 0);
  }

  lemma TerminalStatus(k: K, dev: nat, trans: nat, recv: nat)
    requires Safe(k) && k.status == Running && dev < 8 && trans < U32 && recv < U32
    ensures var base := Devices.RegisterAddr(Devices.INT_TERMINAL, dev);
      TerminalInterrupt(k, dev, trans, recv).status ==
        if (trans % STATUS_MODULUS == Devices.CHAR_DONE && NoRoom(k, Tcb(SSI), Raw(base + 0x8)))
          || (trans % STATUS_MODULUS != Devices.CHAR_DONE && recv % STATUS_MODULUS == Devices.CHAR_DONE && NoRoom(k, Tcb(SSI), Raw(base)))
        then Panicked else Running
  {
    hide Safe, Notify, NoRoom;
    var base := Devices.RegisterAddr(Devices.INT_TERMINAL, dev);
    NotifyStatus(k, Raw(base + 0x8), INTERRUPT_MSG, trans);
    NotifyStatus(k, Raw(base), INTERRUPT_MSG, recv);
  }

  lemma RecvStatus(k: K, from: Addr, clk: seq<nat>)
    requires Safe(k) && |clk| == 8 && Enabled(k, RecvCall(from))
    ensures Aged(k.tree) && StatusIs(k, RecvCall(from), clk)
  {
    hide Safe, PoolExhausted, NoRoom;
    SafeAged(k);
    NobodyToSend(k, Null, Null);
    OneTarget(k, RecvCall(from), clk, Null, Letter(Null, Word(0)));
  }

  /** A handler panics if and only if a letter of this step must be queued and the message pool is empty, or a trap manager
      terminates a thread that is not there any more. */
  lemma HandlerPanicsIff(r: Run, i: nat)
    requires IsRun(r) && i < |r.events| && !r.events[i].SsiServes?
    ensures |r.clocks[i]| == 8 && Enabled(r.states[i], r.events[i])
    ensures Handled(r, i).status ==
      if PoolExhausted(r.states[i], r.events[i], r.clocks[i]) || KillsNobody(r.states[i], r.events[i]) then Panicked else Running
  {
    hide Step, Safe, Handle, Enabled, PoolExhausted, KillsNobody, TrapAnswer;
    RanBefore(r, i);
    var k, e, clk := r.states[i], r.events[i], r.clocks[i];
    match e
    case SendCall(to, body) => if TrapAnswer(k, e) { AnswerStatus(k, e, clk); } else { SendStatus(k, to, body, clk); }
    case RecvCall(from) => RecvStatus(k, from, clk);
    case TrapRaised(kind, cause) => TrapStatus(k, kind, cause, clk);
    case SsiCalls => ReplyStatus(k, clk);
    case _ => IrqStatus(k, e, clk);
  }
}
