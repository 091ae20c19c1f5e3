/** What the SSI receives and serves over whole runs: every message exactly once and in order, and what the
    interrupt handler reports to it. */
module SsiRuns {
  import opened Types
  import opened Sequences
  import opened ProcessTree
  import opened ThreadQueues
  import opened Mailboxes
  import opened KernelSpec
  import opened Invariants
  import opened Runs
  import Timing
  import Devices
  import Frames

  // ----- what the SSI holds -----

  /** MsgRecv has returned and the message has not been served yet. */
  ghost predicate Holding(k: K) {
    k.ssi.pc == Got && SSI !in k.q.wait
  }

  ghost function InHand(k: K): (r: seq<Letter>) {
    if Holding(k) then [HeldLetter(k)] else []
  }

  /** The SSI has served `served`, and `sent` is what sender a has had accepted for it. */
  ghost predicate Tracks(k: K, served: seq<Letter>, a: Addr, sent: seq<Payload>) {
    k.mail.got[SSI] == served + InHand(k) && From(k.mail.log[SSI], a) == sent
  }

  lemma TracksFrame(k: K, k': K, served: seq<Letter>, a: Addr, sent: seq<Payload>)
    requires Tracks(k, served, a, sent)
    requires k'.mail.got[SSI] == k.mail.got[SSI] && k'.mail.log[SSI] == k.mail.log[SSI]
    requires k'.ssi.pc == k.ssi.pc && (SSI in k'.q.wait <==> SSI in k.q.wait)
    requires k.ssi.pc == Got ==> HeldLetter(k') == HeldLetter(k)
    ensures Tracks(k', served, a, sent)
  {}

  lemma FromAppend(ls: seq<Letter>, l: Letter, a: Addr)
    ensures From(ls + [l], a) == From(ls, a) + if l.from == a then [l.body] else []
  {
    assert (ls + [l])[..|ls|] == ls;
  }

  // ----- one operation -----

  lemma HandOverTracks(k: K, t: Tid, l: Letter, served: seq<Letter>, a: Addr, sent: seq<Payload>)
    requires Partition(k.q) && (SSI in k.q.wait ==> k.ssi.pc == Got) && t in k.q.wait && Tracks(k, served, a, sent)
    ensures Tracks(k.(q := Wake(k.q, t), mail := HandOver(k.mail, t, l)), served, a, sent + if t == SSI && l.from == a then [l.body] else [])
  {
    hide From;
    PartitionMeans(k.q);
    RemoveIsMinus(k.q.wait, t);
    if t == SSI {
      FromAppend(k.mail.log[SSI], l, a);
      assert SSI !in Wake(k.q, t).wait;
    }
  }

  lemma EnqueueTracks(k: K, t: Tid, l: Letter, served: seq<Letter>, a: Addr, sent: seq<Payload>)
    requires k.mail.free != [] && Tracks(k, served, a, sent)
    ensures Tracks(k.(mail := Enqueue(k.mail, t, l)), served, a, sent + if t == SSI && l.from == a then [l.body] else [])
  {
    FromAppend(k.mail.log[SSI], l, a);
  }

  lemma SendTracks(k: K, sender: Addr, target: Addr, body: Payload, served: seq<Letter>, a: Addr, sent: seq<Payload>)
    requires Safe(k) && k.status == Running && Tracks(k, served, a, sent)
    ensures var r := Send(k, sender, target, body);
      r.status == Running ==> Tracks(r, served, a, sent + if target == Tcb(SSI) && Alias(sender) == a then [body] else [])
  {
    hide Tracks, HandOver, Enqueue, Wake, MailOk, TrapsOk, PoolOk, TreeOk;
    var l := Letter(Alias(sender), body);
    assert sent + [] == sent;
    if target.Tcb? && Live(k.q, target.t) {
      if Wakes(k, l.from, target.t) {
        HandOverTracks(k, target.t, l, served, a, sent);
      } else if k.mail.free != [] {
        EnqueueTracks(k, target.t, l, served, a, sent);
      }
    }
  }

  lemma KillTracks(k: K, t: Tid, served: seq<Letter>, a: Addr, sent: seq<Payload>)
    requires Safe(k) && t != SSI && Tracks(k, served, a, sent)
    ensures Tracks(Terminate(k, t), served, a, sent) && Terminate(k, t).ssi == k.ssi
    ensures SSI in Terminate(k, t).q.wait <==> SSI in k.q.wait
  {
    if Live(k.q, t) {
      KillSafe(k, t);
    }
  }

  lemma DeliverTracks(k: K, t: Tid, target: Addr, body: Payload, served: seq<Letter>, a: Addr, sent: seq<Payload>)
    requires Safe(k) && k.status == Running && Tracks(k, served, a, sent) && (t == SSI ==> !Holding(k) && k.ssi.pc != Got)
    requires Alias(Tcb(t)) != a
    ensures var r := Deliver(k, t, target, body); r.status == Running ==> Tracks(r, served, a, sent)
  {
    hide Safe, Send;
    SendTracks(k, Tcb(t), target, body, served, a, sent);
    Frames.SendKeeps(k, Tcb(t), target, body);
    assert sent + [] == sent;
  }

  lemma MsgSendTracks(k: K, to: Addr, body: Payload, served: seq<Letter>, a: Addr, sent: seq<Payload>)
    requires Safe(k) && k.status == Running && k.q.cur.Some? && k.q.cur.value != SSI && SendAllowed(k, k.q.cur.value, to, body)
    requires Tracks(k, served, a, sent) && !a.Tcb? && a != Magic
    ensures var r := MsgSend(k, to, body); r.status == Running ==> Tracks(r, served, a, sent)
  {
    hide Safe, Deliver, Terminate;
    var t := k.q.cur.value;
    var n := Announce(k, to);
    SafeFrame(k, n);
    TracksFrame(k, n, served, a, sent);
    if !Intercepted(n, t, Target(to), body) {
      DeliverTracks(n, t, Target(to), body, served, a, sent);
    } else {
      NotTheSsi(n, Target(to), t);
      if body == TRAPTERMINATE {
        KillTracks(n, Target(to).t, served, a, sent);
      } else {
        ResumeTracks(n, Target(to).t, served, a, sent);
      }
    }
  }

  lemma NotTheSsi(k: K, target: Addr, t: Tid)
    requires Safe(k) && target.Tcb? && k.mail.waitingFor[target.t] == Tcb(t)
    ensures target.t != SSI
  {}

  lemma ResumeTracks(k: K, r: Tid, served: seq<Letter>, a: Addr, sent: seq<Payload>)
    requires Safe(k) && r in k.q.wait && r != SSI && Tracks(k, served, a, sent)
    ensures Tracks(Resume(k, r), served, a, sent)
  {
    PartitionMeans(k.q);
    RemoveIsMinus(k.q.wait, r);
  }

  lemma RecvTracks(k: K, from: Addr, served: seq<Letter>, a: Addr, sent: seq<Payload>)
    requires k.q.cur.Some? && k.q.cur.value != SSI && Tracks(k, served, a, sent)
    ensures Tracks(Recv(k, from), served, a, sent)
  {}

  lemma TrapTracks(k: K, kind: TrapKind, cause: nat, served: seq<Letter>, a: Addr, sent: seq<Payload>)
    requires Safe(k) && k.status == Running && k.q.cur.Some? && k.q.cur.value != SSI
    requires Tracks(k, served, a, sent) && !a.Tcb? && a != Magic
    ensures var r := Trap(k, kind, cause); r.status == Running ==> Tracks(r, served, a, sent)
  {
    hide Safe, Send, Terminate;
    var t := k.q.cur.value;
    var m := ManagerOf(k, kind, t);
    if m == Null {
      KillTracks(k, t, served, a, sent);
    } else {
      var s := Send(k, Tcb(t), m, Word(cause));
      SendTracks(k, Tcb(t), m, Word(cause), served, a, sent);
      Frames.SendKeeps(k, Tcb(t), m, Word(cause));
      assert sent + [] == sent;
      if s.status == Running {
        BlockTracks(s, m, served, a, sent);
      }
    }
  }

  lemma BlockTracks(k: K, m: Addr, served: seq<Letter>, a: Addr, sent: seq<Payload>)
    requires k.q.cur.Some? && k.q.cur.value != SSI && Tracks(k, served, a, sent)
    ensures Tracks(Block(k, m, true), served, a, sent)
  {}

  lemma SsiCallTracks(k: K, served: seq<Letter>, a: Addr, sent: seq<Payload>)
    requires Safe(k) && k.status == Running && Enabled(k, SsiCalls) && Tracks(k, served, a, sent) && a != Magic
    ensures var r := SsiCall(k); r.status == Running ==> Tracks(r, served, a, sent)
  {
    PartitionMeans(k.q);
    if k.ssi.pc == Sending {
      ReplyTracks(k, served, a, sent);
    } else {
      ReceiveTracks(k, served, a, sent);
    }
  }

  lemma ReplyTracks(k: K, served: seq<Letter>, a: Addr, sent: seq<Payload>)
    requires Safe(k) && k.status == Running && k.q.cur == Some(SSI) && k.ssi.pc == Sending && Tracks(k, served, a, sent) && a != Magic
    ensures var r := SsiReply(k); r.status == Running ==> Tracks(r, served, a, sent)
  {
    var r := k.ssi.outbox[0];
    DeliverTracks(k, SSI, Tcb(r.to), r.body, served, a, sent);
  }

  lemma ReceiveTracks(k: K, served: seq<Letter>, a: Addr, sent: seq<Payload>)
    requires Safe(k) && k.q.cur == Some(SSI) && k.ssi.pc == AtRecv && Tracks(k, served, a, sent)
    ensures Tracks(SsiReceive(k), served, a, sent)
  {
    PartitionMeans(k.q);
  }

  // ----- interrupts -----

  predicate IsIrq(e: Event) {
    e.TimerIrq? || e.DeviceIrq? || e.TerminalIrq? || e.NoLineIrq?
  }

  /** The message that an entry of the interrupt handler sends to the SSI, if it sends one. */
  function Reported(k: K, e: Event, clk: seq<nat>): (l: Option<Letter>)
    requires |clk| == 8 && Enabled(k, e)
    ensures l.Some? ==> l.value.body.Irq?
  {
    match e
    case TimerIrq =>
      if Timing.TickDue(Timing.Count(Enter(k, clk).tm, clk)) then Some(Report(k, Timer, PSEUDOCLOCK_MSG, 0)) else None
    case DeviceIrq(line, dev, status) => Some(Report(k, Raw(Devices.RegisterAddr(line, dev)), INTERRUPT_MSG, status))
    case TerminalIrq(dev, trans, recv) =>
      var base := Devices.RegisterAddr(Devices.INT_TERMINAL, dev);
      if trans % STATUS_MODULUS == Devices.CHAR_DONE then Some(Report(k, Raw(base + 0x8), INTERRUPT_MSG, trans))
      else if recv % STATUS_MODULUS == Devices.CHAR_DONE then Some(Report(k, Raw(base), INTERRUPT_MSG, recv))
      else None
    case _ => None
  }

  /** What sender a gets to say in a step. */
  function Said(k: K, e: Event, clk: seq<nat>, a: Addr): (r: seq<Payload>)
    requires |clk| == 8 && Enabled(k, e)
  {
    var l := Reported(k, e, clk);
    if l.Some? && l.value.from == a then [l.value.body] else []
  }

  lemma NotifyTracks(k: K, from: Addr, service: nat, status: nat, served: seq<Letter>, a: Addr, sent: seq<Payload>)
    requires Safe(k) && k.status == Running && Tracks(k, served, a, sent) && from != Tcb(SSI)
    requires (service == PSEUDOCLOCK_MSG || service == INTERRUPT_MSG) && status < U32
    ensures var r := Notify(k, from, service, status);
      r.status == Running ==> Tracks(r, served, a, sent + if from == a then [Report(k, from, service, status).body] else [])
  {
    hide Safe, Send;
    var l := Report(k, from, service, status);
    RecordSafe(k, Some(l));
    SendTracks(Record(k, Some(l)), from, Tcb(SSI), l.body, served, a, sent);
  }

  lemma RecordTracks(k: K, l: Option<Letter>, served: seq<Letter>, a: Addr, sent: seq<Payload>)
    requires Tracks(k, served, a, sent)
    ensures Tracks(Record(k, l), served, a, sent)
  {}

  lemma TimerTracks(k: K, clk: seq<nat>, served: seq<Letter>, a: Addr, sent: seq<Payload>)
    requires Safe(k) && k.status == Running && |clk| == 8 && Tracks(k, served, a, sent)
    ensures var r := TimerInterrupt(k, clk);
      r.status == Running ==>
        Tracks(r, served, a, sent + if Timing.TickDue(Timing.Count(k.tm, clk)) && a == Timer then [Report(k, Timer, PSEUDOCLOCK_MSG, 0).body] else [])
  {
    hide Safe, Notify;
    var c := k.(tm := Timing.Count(k.tm, clk));
    SafeFrame(k, c);
    TracksFrame(k, c, served, a, sent);
    NotifyTracks(c, Timer, PSEUDOCLOCK_MSG, 0, served, a, sent);
    assert sent + [] == sent;
  }

  /** An interrupt, after the entry of the handler. */
  lemma IrqTracks(k: K, e: Event, clk: seq<nat>, served: seq<Letter>, a: Addr, sent: seq<Payload>)
    requires Safe(k) && |clk| == 8 && Enabled(k, e) && IsIrq(e) && Tracks(k, served, a, sent) && Aged(k.tree)
    ensures Handle(k, e, clk).status == Running ==> Tracks(Handle(k, e, clk), served, a, sent + Said(k, e, clk, a))
  {
    hide Safe, TimerInterrupt, Notify, Tracks;
    var k' := Enter(k, clk);
    SafeFrame(k, k');
    EnterTracks(k, clk, served, a, sent);
    assert sent + [] == sent;
    RecordTracks(k', None, served, a, sent);
    match e
    case TimerIrq => TimerTracks(k', clk, served, a, sent);
    case DeviceIrq(line, dev, status) =>
      NotifyTracks(k', Raw(Devices.RegisterAddr(line, dev)), INTERRUPT_MSG, status, served, a, sent);
    case TerminalIrq(dev, trans, recv) =>
      var base := Devices.RegisterAddr(Devices.INT_TERMINAL, dev);
      NotifyTracks(k', Raw(base + 0x8), INTERRUPT_MSG, trans, served, a, sent);
      NotifyTracks(k', Raw(base), INTERRUPT_MSG, recv, served, a, sent);
    case NoLineIrq =>
  }

  /** A system call or a trap. */
  lemma CallTracks(k: K, e: Event, clk: seq<nat>, served: seq<Letter>, a: Addr, sent: seq<Payload>)
    requires Safe(k) && |clk| == 8 && Enabled(k, e) && !IsIrq(e) && !e.SsiServes? && Aged(k.tree)
    requires Tracks(k, served, a, sent) && !a.Tcb? && a != Magic
    ensures Handle(k, e, clk).status == Running ==> Tracks(Handle(k, e, clk), served, a, sent)
  {
    hide Safe, MsgSend, Recv, Trap, SsiCall, Tracks;
    var k' := Enter(k, clk);
    SafeFrame(k, k');
    EnterTracks(k, clk, served, a, sent);
    match e
    case SendCall(to, body) => MsgSendTracks(k', to, body, served, a, sent);
    case RecvCall(from) => RecvTracks(k', from, served, a, sent);
    case TrapRaised(kind, cause) => TrapTracks(k', kind, cause, served, a, sent);
    case SsiCalls => SsiCallTracks(k', served, a, sent);
  }

  lemma EnterTracks(k: K, clk: seq<nat>, served: seq<Letter>, a: Addr, sent: seq<Payload>)
    requires |clk| == 8 && Tracks(k, served, a, sent)
    ensures Tracks(Enter(k, clk), served, a, sent)
  {}

  lemma SchedulerTracks(k: K, clk: seq<nat>, served: seq<Letter>, a: Addr, sent: seq<Payload>)
    requires |clk| == 8 && Tracks(k, served, a, sent)
    ensures Tracks(Scheduler(k, clk), served, a, sent)
  {}

  /** Serving uses up what the SSI holds. */
  lemma ServeTracks(k: K, served: seq<Letter>, a: Addr, sent: seq<Payload>)
    requires Safe(k) && Enabled(k, SsiServes) && Tracks(k, served, a, sent)
    ensures Aged(k.tree)
    ensures SsiServe(k).status == Running ==> Tracks(SsiServe(k), served + [HeldLetter(k)], a, sent)
  {
    PartitionMeans(k.q);
    ServeMail(k);
  }

  /** The SSI's own mail is not touched by what it does for others. */
  lemma ServeMail(k: K)
    requires Safe(k) && Enabled(k, SsiServes)
    ensures Aged(k.tree)
    ensures var r := SsiServe(k);
      && r.mail.got[SSI] == k.mail.got[SSI] && r.mail.log[SSI] == k.mail.log[SSI]
      && (r.status == Running ==> r.ssi.pc != Got)
  {
    hide MailOk, TrapsOk, PoolOk, Partition, Devices.RestIndex, Devices.OnInterrupt, Service;
    hide ReadLetter;
    var l := ReadLetter(k);
    if l.body.Req? && Queued(k.q, l.from) {
      ServiceMail(k, l.from.t, l.body.service, l.body.arg);
    }
  }

  lemma ServiceMail(k: K, x: Tid, service: nat, arg: Addr)
    requires Partition(k.q) && Live(k.q, SSI) && Aged(k.tree) && (Creates(service) ==> k.q.free != [])
    ensures var r := Service(k, x, service, arg);
      && r.mail.got[SSI] == k.mail.got[SSI] && r.mail.log[SSI] == k.mail.log[SSI]
      && (r.status == k.status ==> r.ssi.pc != Got || k.status == Panicked)
  {
    hide Partition, Terminate, BrotherBorn, SonBorn, SetManager, Devices.RestIndex, Devices.OnWait;
    PartitionMeans(k.q);
    TerminateMail(k, x);
    if k.q.free != [] {
      BirthMail(k, x);
    }
  }

  lemma TerminateMail(k: K, x: Tid)
    requires Aged(k.tree)
    ensures Terminate(k, x).mail.got == k.mail.got && Terminate(k, x).mail.log == k.mail.log
    ensures forall kind, m :: SetManager(k, kind, x, m).mail == k.mail && SetManager(k, kind, x, m).status == k.status
  {}

  lemma BirthMail(k: K, x: Tid)
    requires k.q.free != []
    ensures k.q.free[0] in k.q.free
    ensures forall t: Tid :: t != k.q.free[0] ==>
      && BrotherBorn(k, x).mail.got[t] == k.mail.got[t] && BrotherBorn(k, x).mail.log[t] == k.mail.log[t]
      && SonBorn(k, x).mail.got[t] == k.mail.got[t] && SonBorn(k, x).mail.log[t] == k.mail.log[t]
  {}

  // ----- whole runs -----

  /** The messages served in the first i steps. */
  ghost function ServedLetters(r: Run, i: nat): (ls: seq<Letter>)
    requires IsRun(r) && i <= |r.events|
  {
    if i == 0 then []
    else ServedLetters(r, i - 1) + if r.events[i - 1].SsiServes? then [HeldLetter(r.states[i - 1])] else []
  }

  /** What the interrupt handler reported at each of its entries in the first i steps. */
  ghost function Entries(r: Run, i: nat): (es: seq<Option<Letter>>)
    requires IsRun(r) && i <= |r.events|
    ensures forall n :: 0 <= n < |es| && es[n].Some? ==> es[n].value.body.Irq?
  {
    if i == 0 then []
    else
      var e := r.events[i - 1];
      RunStep(r, i - 1);
      Entries(r, i - 1) + if IsIrq(e) then [Reported(r.states[i - 1], e, r.clocks[i - 1])] else []
  }

  /** The reports of one sender. */
  ghost function ReportsOf(es: seq<Option<Letter>>, a: Addr): (r: seq<Payload>) {
    if es == [] then []
    else
      var l := es[|es| - 1];
      ReportsOf(es[..|es| - 1], a) + if l.Some? && l.value.from == a then [l.value.body] else []
  }

  /** The SSI has served exactly what it received, in that order, except for what it holds; and the
      messages that a device or the timer has had accepted for it are exactly the handler's reports. */
  lemma {:induction false} SsiServesAll(r: Run, i: nat, a: Addr)
    requires IsRun(r) && i <= |r.events| && r.states[i].status == Running && (a.Raw? || a == Timer)
    ensures Tracks(r.states[i], ServedLetters(r, i), a, ReportsOf(Entries(r, i), a))
  {
    hide Tracks, Next, Step, ServedLetters, Entries, ReportsOf, Safe, Enabled;
    if i == 0 {
      TracksFromBoot(r, a);
    } else {
      RanBefore(r, i - 1);
      SsiServesAll(r, i - 1, a);
      RunTracks(r, i - 1, a);
    }
  }

  lemma TracksFromBoot(r: Run, a: Addr)
    requires IsRun(r)
    ensures Tracks(r.states[0], ServedLetters(r, 0), a, ReportsOf(Entries(r, 0), a))
  {
    BootTracks(r.boot, r.bootClk, a);
  }

  lemma RanBefore(r: Run, i: nat)
    requires IsRun(r) && i < |r.events|
    ensures r.states[i].status == Running && Enabled(r.states[i], r.events[i]) && |r.clocks[i]| == 8 && Safe(r.states[i])
    ensures Aged(r.states[i].tree) && r.states[i + 1] == Step(r.states[i], r.events[i], r.clocks[i])
  {
    hide Step, Safe, Timing.TimeOk;
    Reachable(r, i);
    RunStep(r, i);
  }

  /** What step i adds to what is said by a. */
  ghost function SaidAt(r: Run, i: nat, a: Addr): (s: seq<Payload>)
    requires IsRun(r) && i < |r.events|
  {
    RunStep(r, i);
    if IsIrq(r.events[i]) then Said(r.states[i], r.events[i], r.clocks[i], a) else []
  }

  lemma EntriesGrow(r: Run, i: nat, a: Addr)
    requires IsRun(r) && i < |r.events|
    ensures ReportsOf(Entries(r, i + 1), a) == ReportsOf(Entries(r, i), a) + SaidAt(r, i, a)
  {
    hide Step, Reported;
    RunStep(r, i);
    var es, e := Entries(r, i), r.events[i];
    if IsIrq(e) {
      assert (es + [Reported(r.states[i], e, r.clocks[i])])[..|es|] == es;
    } else {
      assert es + [] == es;
    }
  }

  lemma RunTracks(r: Run, i: nat, a: Addr)
    requires IsRun(r) && i < |r.events| && r.states[i + 1].status == Running && (a.Raw? || a == Timer)
    requires Tracks(r.states[i], ServedLetters(r, i), a, ReportsOf(Entries(r, i), a))
    ensures Tracks(r.states[i + 1], ServedLetters(r, i + 1), a, ReportsOf(Entries(r, i + 1), a))
  {
    hide Tracks, Step, Safe, Said, Entries, ReportsOf;
    RanBefore(r, i);
    EntriesGrow(r, i, a);
    StepTracks(r.states[i], r.events[i], r.clocks[i], ServedLetters(r, i), a, ReportsOf(Entries(r, i), a));
  }

  lemma StepTracks(k: K, e: Event, clk: seq<nat>, served: seq<Letter>, a: Addr, sent: seq<Payload>)
    requires Safe(k) && |clk| == 8 && Enabled(k, e) && Tracks(k, served, a, sent) && !a.Tcb? && a != Magic
    ensures Aged(k.tree)
    ensures Step(k, e, clk).status == Running ==>
      Tracks(Step(k, e, clk), served + (if e.SsiServes? then [HeldLetter(k)] else []), a, sent + (if IsIrq(e) then Said(k, e, clk, a) else []))
  {
    hide Safe, Scheduler, Handle, SsiServe, Tracks, Enabled, Said;
    SafeAged(k);
    assert sent + [] == sent && served + [] == served;
    if e.SsiServes? {
      ServeTracks(k, served, a, sent);
    } else {
      var said := if IsIrq(e) then Said(k, e, clk, a) else [];
      if IsIrq(e) {
        IrqTracks(k, e, clk, served, a, sent);
      } else {
        CallTracks(k, e, clk, served, a, sent);
      }
      Frames.SchedulerKeeps(Handle(k, e, clk), clk);
      if Handle(k, e, clk).status == Running {
        SchedulerTracks(Handle(k, e, clk), clk, served, a, sent + said);
      }
    }
  }

  lemma BootTracks(boot: nat, clk: seq<nat>, a: Addr)
    requires |clk| == 8
    ensures Tracks(Scheduler(Boot(boot), clk), [], a, [])
  {}
}
