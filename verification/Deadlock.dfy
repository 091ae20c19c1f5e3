/** The scheduler's deadlock PANIC: when it fires, when it does not, and that a deadlock is one. */
module Deadlock {
  import opened Types
  import opened Sequences
  import opened ProcessTree
  import opened ThreadQueues
  import opened Mailboxes
  import opened KernelSpec
  import opened Invariants
  import opened Accounts
  import opened Runs
  import opened SsiRuns
  import Devices
  import Timing
  import Frames

  // ----- what soft_block_count counts -----

  /** Open requests lost in the first i steps, counted by the branches that lose them. */
  ghost function Leaks(r: Run, i: nat): (n: nat)
    requires IsRun(r) && i <= |r.events|
  {
    if i == 0 then 0
    else
      RunStep(r, i - 1);
      Leaks(r, i - 1) + Lost(r.states[i - 1], r.events[i - 1])
  }

  lemma {:induction false} RunBalance(r: Run, i: nat)
    requires IsRun(r) && i <= |r.events|
    ensures Balance(r.states[i], Leaks(r, i))
  {
    hide Next, Balance, Lost, Safe, Enabled, Step, Leaks;
    if i == 0 {
      NoLeaks(r);
      BootBalance(r.boot);
      SchedulerBalance(Boot(r.boot), r.bootClk, 0);
    } else {
      RunBalance(r, i - 1);
      RanBefore(r, i - 1);
      LeaksGrow(r, i - 1);
      StepBalance(r.states[i - 1], r.events[i - 1], r.clocks[i - 1], Leaks(r, i - 1));
    }
  }

  lemma NoLeaks(r: Run)
    requires IsRun(r)
    ensures Leaks(r, 0) == 0
  {}

  lemma LeaksGrow(r: Run, i: nat)
    requires IsRun(r) && i < |r.events|
    ensures Aged(r.states[i].tree) && Enabled(r.states[i], r.events[i])
    ensures Leaks(r, i + 1) == Leaks(r, i) + Lost(r.states[i], r.events[i])
  {
    hide Lost, Enabled, Step;
    RunStep(r, i);
  }

  /** In every running state `soft_block_count` is the number of open requests plus the number of requests that
      have been lost on the way, modulo 2^32. Nothing ever takes a lost request off the counter again. */
  lemma SoftBlockExact(r: Run, i: nat)
    requires IsRun(r) && i <= |r.events| && r.states[i].status == Running
    ensures r.states[i].softBlock == (Outstanding(r.states[i]) + Leaks(r, i)) % U32
    ensures r.states[i].reqs < U32 ==> r.states[i].softBlock == Outstanding(r.states[i]) + Leaks(r, i)
    ensures forall j :: 0 <= j <= i ==> Leaks(r, j) <= Leaks(r, i)
  {
    hide Next, Outstanding, Leaks;
    RunBalance(r, i);
    forall j | 0 <= j <= i ensures Leaks(r, j) <= Leaks(r, i) {
      LeaksStay(r, j, i);
    }
  }

  lemma {:induction false} LeaksStay(r: Run, j: nat, i: nat)
    requires IsRun(r) && j <= i <= |r.events|
    ensures Leaks(r, j) <= Leaks(r, i)
    decreases i
  {
    hide Next, Lost;
    if j < i {
      LeaksStay(r, j, i - 1);
      LeaksGrow(r, i - 1);
    }
  }

  // ----- the deadlock PANIC -----

  /** Nobody can run, and there are clients. */
  ghost predicate Standstill(h: K) {
    h.q.cur == None && h.q.ready == [] && h.threadCount > 1
  }

  /** And no request to the SSI is open. */
  ghost predicate Deadlocked(h: K) {
    Standstill(h) && Outstanding(h) == 0
  }

  /** The scheduler panics if and only if nobody can run and the open and lost requests together are a multiple of
      2^32. So, until there have been that many requests, it panics if and only if the system is deadlocked and
      no request was ever lost; */
  lemma DeadlockPanicIff(r: Run, i: nat)
    requires IsRun(r) && i < |r.events| && !r.events[i].SsiServes? && Handled(r, i).status == Running
    ensures r.states[i + 1].status == Panicked <==>
      Standstill(Handled(r, i)) && (Outstanding(Handled(r, i)) + Leaks(r, i + 1)) % U32 == 0
    ensures Handled(r, i).reqs < U32 ==>
      (r.states[i + 1].status == Panicked <==> Deadlocked(Handled(r, i)) && Leaks(r, i + 1) == 0)
  {
    hide Handle, Enabled, Lost, Safe, Outstanding, Leaks;
    RanBefore(r, i);
    RunBalance(r, i);
    LeaksGrow(r, i);
    var k, e, clk := r.states[i], r.events[i], r.clocks[i];
    HandleBalance(k, e, clk, Leaks(r, i));
    HandleSafe(k, e, clk);
    SomebodyLives(Handle(k, e, clk));
    PanicIs(Handle(k, e, clk), clk);
  }

  /** and it panics although a request is open if and only if, with all that were lost, the open ones make up a
      positive multiple of 2^32. */
  lemma UnsoundPanicIff(r: Run, i: nat)
    requires IsRun(r) && i < |r.events| && !r.events[i].SsiServes? && Handled(r, i).status == Running
    ensures var h := Handled(r, i); var n := Outstanding(h) + Leaks(r, i + 1);
      r.states[i + 1].status == Panicked && Outstanding(h) > 0 <==> Standstill(h) && Outstanding(h) > 0 && n >= U32 && n % U32 == 0
  {
    hide Next, Outstanding, Leaks, Handled, Standstill;
    DeadlockPanicIff(r, i);
  }

  /** The scheduler's decision to panic. */
  lemma PanicIs(h: K, clk: seq<nat>)
    requires |clk| == 8 && h.status == Running && h.threadCount > 0
    ensures Scheduler(h, clk).status == Panicked <==> Standstill(h) && h.softBlock == 0
  {}

  lemma SomebodyLives(k: K)
    requires Safe(k)
    ensures k.threadCount > 0
  {
    PartitionMeans(k.q);
  }

  /** One ordinary request whose answer is handed over directly: from then on the counter is above the number of
      open requests, and the deadlock PANIC cannot fire any more. */
  lemma HandOverLeaks(r: Run, i: nat, j: nat)
    requires IsRun(r) && i < j < |r.events| && r.events[i].SsiCalls? && r.states[i].ssi.pc == Sending
    requires r.states[i].ssi.outbox != [] && Wakes(r.states[i], Magic, r.states[i].ssi.outbox[0].to)
    ensures r.states[j].reqs < U32 ==> r.states[j].softBlock > Outstanding(r.states[j])
    ensures !r.events[j].SsiServes? && Handled(r, j).status == Running && Handled(r, j).reqs < U32 ==>
      r.states[j + 1].status != Panicked
  {
    hide Next, Outstanding, Handled, Lost, Leaks, Standstill, Enabled, Step, Safe;
    LeaksGrow(r, i);
    HandOverIsLost(r, i);
    LeaksStay(r, i + 1, j);
    LeaksGrow(r, j);
    RanBefore(r, j);
    if r.states[j].reqs < U32 {
      SoftBlockExact(r, j);
    }
    if !r.events[j].SsiServes? && Handled(r, j).status == Running && Handled(r, j).reqs < U32 {
      DeadlockPanicIff(r, j);
    }
  }

  lemma HandOverIsLost(r: Run, i: nat)
    requires IsRun(r) && i < |r.events| && r.events[i].SsiCalls? && r.states[i].ssi.pc == Sending
    requires r.states[i].ssi.outbox != [] && Wakes(r.states[i], Magic, r.states[i].ssi.outbox[0].to)
    ensures Aged(r.states[i].tree) && Enabled(r.states[i], r.events[i]) && Lost(r.states[i], r.events[i]) == 1
  {
    hide Step;
    RunStep(r, i);
  }

  // ----- a deadlock is for ever -----

  /** Only the SSI is awake, and nobody's request is open. */
  ghost predicate Stuck(k: K) {
    && k.status == Running && k.reqs < U32 && Outstanding(k) == 0
    && (forall t: Tid :: t in k.q.ready || k.q.cur == Some(t) ==> t == SSI)
  }

  /** The queues of the clients are as they were, and none of them has been sent anything. */
  ghost predicate ClientsAsleep(k: K, k': K) {
    && k'.q.free == k.q.free
    && (forall t: Tid :: t in k'.q.ready || k'.q.cur == Some(t) ==> t == SSI)
    && (forall t: Tid :: t != SSI ==> k'.mail.log[t] == k.mail.log[t] && (t in k'.q.wait <==> t in k.q.wait))
  }

  /** What is not open cannot be counted anywhere. */
  lemma NothingOpen(k: K)
    requires Stuck(k) && Safe(k)
    ensures k.ssi.outbox == [] && k.ssi.clock == [] && k.ssi.pc != Sending && !(Busy(k) == 1)
    ensures forall i :: 0 <= i < |k.ssi.dev| ==> !k.ssi.dev[i].Waiter?
  {
    forall i | 0 <= i < |k.ssi.dev| ensures !k.ssi.dev[i].Waiter? {
      WaitingUpdate(k.ssi.dev, i, Device.Idle);
    }
  }

  lemma SendAsleep(k: K, from: Addr, body: Payload)
    requires Partition(k.q)
    requires forall t: Tid :: t in k.q.ready || k.q.cur == Some(t) ==> t == SSI
    ensures ClientsAsleep(k, Send(k, from, Tcb(SSI), body))
  {
    hide Partition, Wake;
    PartitionMeans(k.q);
    OnlySsiWoken(k.q);
  }

  /** Waking the SSI, if it sleeps, wakes nobody else. */
  lemma OnlySsiWoken(q: Queues)
    ensures forall t: Tid :: t != SSI ==> (t in Wake(q, SSI).wait <==> t in q.wait)
    ensures forall t: Tid :: t in Wake(q, SSI).ready ==> t in q.ready || t == SSI
    ensures Wake(q, SSI).free == q.free && Wake(q, SSI).cur == q.cur
  {
    if SSI in q.wait {
      var i := IndexOf(q.wait, SSI);
      assert q.wait == q.wait[..i] + [SSI] + q.wait[i + 1..];
    }
  }

  lemma NotifyAsleep(k: K, from: Addr, service: nat, status: nat)
    requires Partition(k.q)
    requires forall t: Tid :: t in k.q.ready || k.q.cur == Some(t) ==> t == SSI
    ensures ClientsAsleep(k, Notify(k, from, service, status))
  {
    hide Send;
    var l := Report(k, from, service, status);
    SendAsleep(Record(k, Some(l)), from, l.body);
  }

  lemma TimerAsleep(k: K, clk: seq<nat>)
    requires Partition(k.q) && |clk| == 8
    requires forall t: Tid :: t in k.q.ready || k.q.cur == Some(t) ==> t == SSI
    ensures ClientsAsleep(k, TimerInterrupt(k, clk))
  {
    hide Notify, Partition;
    NotifyAsleep(k.(tm := Timing.Count(k.tm, clk)), Timer, PSEUDOCLOCK_MSG, 0);
  }

  lemma ReceiveAsleep(k: K)
    requires Safe(k) && k.q.cur == Some(SSI)
    requires forall t: Tid :: t in k.q.ready || k.q.cur == Some(t) ==> t == SSI
    ensures ClientsAsleep(k, SsiReceive(k))
  {
    PartitionMeans(k.q);
  }

  lemma TerminalAsleep(k: K, dev: nat, trans: nat, recv: nat)
    requires Partition(k.q) && dev < 8
    requires forall t: Tid :: t in k.q.ready || k.q.cur == Some(t) ==> t == SSI
    ensures ClientsAsleep(k, TerminalInterrupt(k, dev, trans, recv))
  {
    hide Notify, Partition;
    var base := Devices.RegisterAddr(Devices.INT_TERMINAL, dev);
    NotifyAsleep(k, Raw(base + 0x8), INTERRUPT_MSG, trans);
    NotifyAsleep(k, Raw(base), INTERRUPT_MSG, recv);
  }

  lemma HandleAsleep(k: K, e: Event, clk: seq<nat>)
    requires Stuck(k) && Safe(k) && |clk| == 8 && Enabled(k, e) && !e.SsiServes?
    ensures Aged(k.tree) && ClientsAsleep(k, Handle(k, e, clk)) && Frames.Uncounted(k, Handle(k, e, clk))
  {
    hide Safe, SsiReceive, SsiReply, TimerInterrupt, TerminalInterrupt, Notify, MsgSend, Recv, Trap, Partition, Outstanding;
    var k' := Enter(k, clk);
    SafeAged(k);
    SafeFrame(k, k');
    SafeParts(k);
    NothingOpen(k);
    match e
    case SsiCalls =>
      ReceiveAsleep(k');
      ReceiveUncounted(k');
    case TimerIrq =>
      TimerAsleep(k', clk);
      Frames.TimerKeeps(k', clk);
    case DeviceIrq(line, dev, status) =>
      NotifyAsleep(k', Raw(Devices.RegisterAddr(line, dev)), INTERRUPT_MSG, status);
      Frames.NotifyKeeps(k', Raw(Devices.RegisterAddr(line, dev)), INTERRUPT_MSG, status);
    case TerminalIrq(dev, trans, recv) =>
      TerminalAsleep(k', dev, trans, recv);
      TerminalUncounted(k', dev, trans, recv);
    case _ =>
  }

  lemma ReceiveUncounted(k: K)
    requires k.q.cur.Some?
    ensures Frames.Uncounted(k, SsiReceive(k))
  {}

  lemma TerminalUncounted(k: K, dev: nat, trans: nat, recv: nat)
    requires dev < 8
    ensures Frames.Uncounted(k, TerminalInterrupt(k, dev, trans, recv))
  {
    hide Notify;
    var base := Devices.RegisterAddr(Devices.INT_TERMINAL, dev);
    Frames.NotifyKeeps(k, Raw(base + 0x8), INTERRUPT_MSG, trans);
    Frames.NotifyKeeps(k, Raw(base), INTERRUPT_MSG, recv);
  }

  lemma SafeParts(k: K)
    requires Safe(k)
    ensures Partition(k.q)
  {}

  /** The SSI can only be serving an interrupt that concerns nobody. */
  lemma ServeAsleep(k: K)
    requires Stuck(k) && Safe(k) && Enabled(k, SsiServes)
    ensures Aged(k.tree) && ClientsAsleep(k, SsiServe(k)) && Frames.Uncounted(k, SsiServe(k))
  {
    hide MailOk, TrapsOk, PoolOk, Service, Devices.RestIndex, Devices.OnInterrupt;
    PartitionMeans(k.q);
    NothingOpen(k);
    assert !ReadLetter(k).body.Req?;
  }

  lemma StuckStep(k: K, e: Event, clk: seq<nat>)
    requires Inv(k) && Stuck(k) && |clk| == 8 && Enabled(k, e)
    ensures Aged(k.tree)
    ensures var k' := Step(k, e, clk); k'.status == Running ==> Stuck(k') && ClientsAsleep(k, k')
  {
    hide Safe, SsiServe, Handle, Outstanding, Lost, Enabled;
    SafeAged(k);
    StepBalance(k, e, clk, if k.reqs < U32 then k.softBlock - Outstanding(k) else 0);
    if e.SsiServes? {
      ServeAsleep(k);
    } else {
      HandleAsleep(k, e, clk);
      ScheduledAsleep(k, Handle(k, e, clk), clk);
    }
  }

  lemma ScheduledAsleep(k: K, h: K, clk: seq<nat>)
    requires ClientsAsleep(k, h) && |clk| == 8
    ensures ClientsAsleep(k, Scheduler(h, clk)) && Frames.Uncounted(h, Scheduler(h, clk))
  {
    var k' := Scheduler(h, clk);
    forall t: Tid | t in k'.q.ready || k'.q.cur == Some(t) ensures t == SSI {
      assert t in h.q.ready || h.q.cur == Some(t);
    }
  }

  /** After a deadlock that the scheduler lets pass, no client ever runs again or is sent anything: interrupts and
      the SSI are all that is left. */
  lemma {:induction false} DeadlockIsForever(r: Run, i: nat, j: nat, t: Tid)
    requires IsRun(r) && i <= j <= |r.events| && Stuck(r.states[i]) && r.states[j].status == Running
    requires Live(r.states[i].q, t) && t != SSI
    ensures Stuck(r.states[j]) && t in r.states[j].q.wait && r.states[j].mail.log[t] == r.states[i].mail.log[t]
    decreases j
  {
    hide Next, Stuck, Enabled, Step, Safe;
    StuckWaits(r.states[i], t);
    if i < j {
      RanBefore(r, j - 1);
      DeadlockIsForever(r, i, j - 1, t);
      StuckInRun(r, j - 1);
    }
  }

  lemma StuckWaits(k: K, t: Tid)
    requires Stuck(k) && Live(k.q, t) && t != SSI
    ensures t in k.q.wait
  {}

  lemma StuckInRun(r: Run, i: nat)
    requires IsRun(r) && i < |r.events| && Stuck(r.states[i]) && r.states[i + 1].status == Running
    ensures Stuck(r.states[i + 1]) && ClientsAsleep(r.states[i], r.states[i + 1])
  {
    hide Inv, Stuck, ClientsAsleep, Step;
    Reachable(r, i);
    RanBefore(r, i);
    StuckStep(r.states[i], r.events[i], r.clocks[i]);
  }
}
