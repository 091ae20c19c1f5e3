/** What the parts of a handler leave alone. */
module Frames {
  import opened Types
  import opened ProcessTree
  import opened KernelSpec
  import Timing
  import Devices

  /** The clock, the SSI's variables, and what the interrupt handler wrote. */
  predicate Aside(k: K, k': K) {
    k'.tm == k.tm && k'.ssi == k.ssi && k'.written == k.written
  }

  /** The counters of requests. */
  predicate Uncounted(k: K, k': K) {
    k'.reqs == k.reqs && k'.softBlock == k.softBlock
  }

  lemma SendKeeps(k: K, from: Addr, target: Addr, body: Payload)
    ensures var r := Send(k, from, target, body);
      Aside(k, r) && Uncounted(k, r) && r.tree == k.tree && r.traps == k.traps && r.q.cur == k.q.cur && r.q.free == k.q.free
    ensures target.Tcb? && !Live(k.q, target.t) ==> Send(k, from, target, body) == k
    ensures Send(k, from, target, body).status != k.status ==> Send(k, from, target, body).status == Panicked
  {}

  lemma TerminateKeeps(k: K, t: Tid)
    requires Aged(k.tree)
    ensures var r := Terminate(k, t);
      Aside(k, r) && Uncounted(k, r) && r.status == (if Live(k.q, t) then k.status else Panicked)
      && r.tree.birth == k.tree.birth && r.tree.next == k.tree.next && r.mail.log == k.mail.log && r.mail.got == k.mail.got
  {}

  lemma DeliverKeeps(k: K, t: Tid, target: Addr, body: Payload)
    ensures var r := Deliver(k, t, target, body);
      Aside(k, r) && Uncounted(k, r) && r.tree == k.tree && r.q.cur == k.q.cur && r.q.free == k.q.free
  {
    hide Send;
    SendKeeps(k, Tcb(t), target, body);
  }

  lemma MsgSendKeeps(k: K, to: Addr, body: Payload)
    requires k.q.cur.Some? && Aged(k.tree)
    ensures var r := MsgSend(k, to, body); Aside(k, r) && k.reqs <= r.reqs && (to != Magic ==> Uncounted(k, r))
    ensures MsgSend(k, to, body).tree.birth == k.tree.birth
  {
    hide Deliver, Terminate;
    var a := Announce(k, to);
    DeliverKeeps(a, k.q.cur.value, Target(to), body);
    if Target(to).Tcb? {
      TerminateKeeps(a, Target(to).t);
    }
  }

  lemma RecvKeeps(k: K, from: Addr)
    requires k.q.cur.Some?
    ensures var r := Recv(k, from); Aside(k, r) && r.reqs == k.reqs && r.tree == k.tree
  {}

  lemma TrapKeeps(k: K, kind: TrapKind, cause: nat)
    requires k.q.cur.Some? && Aged(k.tree)
    ensures var r := Trap(k, kind, cause); Aside(k, r) && Uncounted(k, r) && r.tree.birth == k.tree.birth
  {
    hide Send, Terminate;
    var t := k.q.cur.value;
    SendKeeps(k, Tcb(t), ManagerOf(k, kind, t), Word(cause));
    TerminateKeeps(k, t);
  }

  lemma BirthKeeps(k: K, x: Tid)
    requires k.q.free != []
    ensures var r := BrotherBorn(k, x);
      r.ssi == k.ssi && r.written == k.written && r.tm == Timing.NewClock(k.tm, k.q.free[0]) && Uncounted(k, r) && r.status == k.status
    ensures var r := SonBorn(k, x);
      r.ssi == k.ssi && r.written == k.written && r.tm == Timing.NewClock(k.tm, k.q.free[0]) && Uncounted(k, r) && r.status == k.status
  {}

  lemma SetManagerKeeps(k: K, kind: TrapKind, x: Tid, m: Addr)
    ensures var r := SetManager(k, kind, x, m);
      Aside(k, r) && Uncounted(k, r) && r.q == k.q && r.mail == k.mail && r.tree == k.tree && r.status == k.status
  {}

  lemma NotifyKeeps(k: K, from: Addr, service: nat, status: nat)
    ensures var r := Notify(k, from, service, status);
      r.tm == k.tm && r.ssi == k.ssi && Uncounted(k, r) && r.tree == k.tree
  {
    hide Send;
    var l := Report(k, from, service, status);
    SendKeeps(Record(k, Some(l)), from, Tcb(SSI), l.body);
  }

  lemma TimerKeeps(k: K, clk: seq<nat>)
    requires |clk| == 8
    ensures var r := TimerInterrupt(k, clk);
      && r.ssi == k.ssi && Uncounted(k, r) && r.tree == k.tree
      && r.tm.used == k.tm.used && r.tm.dispatches == k.tm.dispatches
  {
    hide Notify;
    NotifyKeeps(k.(tm := Timing.Count(k.tm, clk)), Timer, PSEUDOCLOCK_MSG, 0);
  }

  lemma SsiCallKeeps(k: K)
    requires k.q.cur.Some? && Aged(k.tree) && (k.ssi.pc == Sending ==> k.ssi.outbox != [])
    ensures var r := SsiCall(k);
      && r.tm == k.tm && r.written == k.written && r.tree.birth == k.tree.birth && r.reqs == k.reqs
      && r.ssi.dev == k.ssi.dev && r.ssi.clock == k.ssi.clock
  {
    hide MsgSend, Recv;
    if k.ssi.pc == Sending {
      MsgSendKeeps(k, Tcb(k.ssi.outbox[0].to), k.ssi.outbox[0].body);
    } else {
      RecvKeeps(k, Null);
    }
  }

  /** What no handler touches. */
  lemma HandleKeeps(k: K, e: Event, clk: seq<nat>)
    requires |clk| == 8 && Aged(k.tree) && Enabled(k, e) && !e.SsiServes?
    ensures var h := Handle(k, e, clk);
      && h.tree.birth == k.tree.birth && k.reqs <= h.reqs
      && h.ssi.dev == k.ssi.dev && h.ssi.clock == k.ssi.clock && (!e.SsiCalls? ==> h.ssi == k.ssi)
      && h.tm.used == Enter(k, clk).tm.used && h.tm.dispatches == k.tm.dispatches
      && (!e.TimerIrq? ==> h.tm == Enter(k, clk).tm)
  {
    hide MsgSend, Recv, Trap, SsiCall, Notify, TimerInterrupt;
    var k' := Enter(k, clk);
    match e
    case SendCall(to, body) => MsgSendKeeps(k', to, body);
    case RecvCall(from) => RecvKeeps(k', from);
    case TrapRaised(kind, cause) => TrapKeeps(k', kind, cause);
    case SsiCalls => SsiCallKeeps(k');
    case TimerIrq => TimerKeeps(k', clk);
    case DeviceIrq(line, dev, status) => NotifyKeeps(k', Raw(Devices.RegisterAddr(line, dev)), INTERRUPT_MSG, status);
    case TerminalIrq(dev, trans, recv) =>
      var base := Devices.RegisterAddr(Devices.INT_TERMINAL, dev);
      NotifyKeeps(k', Raw(base + 0x8), INTERRUPT_MSG, trans);
      NotifyKeeps(k', Raw(base), INTERRUPT_MSG, recv);
    case NoLineIrq =>
  }

  lemma SchedulerKeeps(h: K, clk: seq<nat>)
    requires |clk| == 8
    ensures var r := Scheduler(h, clk);
      && r.ssi == h.ssi && r.tree == h.tree && r.mail == h.mail && r.traps == h.traps && r.written == h.written && Uncounted(h, r)
      && r.q.wait == h.q.wait && r.q.free == h.q.free && r.threadCount == h.threadCount
      && (r.status == Running ==> h.status == Running)
  {}
}
