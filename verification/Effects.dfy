/** What each operation brings about in a run: whom a message reaches, what a trap does, what is charged, what the
    scheduler decides, where a new thread stands. */
module Effects {
  import opened Types
  import opened Sequences
  import opened ProcessTree
  import opened ThreadQueues
  import opened Mailboxes
  import opened KernelSpec
  import opened Invariants
  import opened Runs
  import opened SsiRuns
  import opened Theorems
  import opened Fairness
  import opened AnswerRuns
  import Accounts
  import Timing
  import Devices
  import Frames
  import Deadlock

  // ----- whatever is sent is accepted -----

  /** Every letter that a step sends to y, the interrupt handler's included. */
  function AllSentTo(k: K, e: Event, clk: seq<nat>, y: Tid): (ls: seq<Letter>)
    requires |clk| == 8 && Enabled(k, e)
  {
    SentTo(k, e, y) + if y == SSI && Reported(k, e, clk).Some? then [Reported(k, e, clk).value] else []
  }

  /** These letters, and no others, have been accepted for y. */
  ghost predicate Accepts(k: K, k': K, y: Tid, ls: seq<Letter>) {
    k'.status == Running ==> k'.mail.log[y] == k.mail.log[y] + if Live(k.q, y) then ls else []
  }

  lemma SendAccepts(k: K, sender: Addr, target: Addr, body: Payload, y: Tid)
    requires k.status == Running
    ensures Accepts(k, Send(k, sender, target, body), y, if target == Tcb(y) then [Letter(Alias(sender), body)] else [])
  {}

  lemma TerminateAccepts(k: K, t: Tid, y: Tid)
    requires Aged(k.tree)
    ensures Accepts(k, Terminate(k, t), y, [])
  {
    hide Terminate;
    Frames.TerminateKeeps(k, t);
  }

  lemma DeliverAccepts(k: K, t: Tid, target: Addr, body: Payload, y: Tid)
    requires k.status == Running
    ensures Accepts(k, Deliver(k, t, target, body), y, if target == Tcb(y) then [Letter(Alias(Tcb(t)), body)] else [])
  {
    hide Send;
    SendAccepts(k, Tcb(t), target, body, y);
  }

  lemma MsgSendAccepts(k: K, to: Addr, body: Payload, y: Tid)
    requires k.status == Running && k.q.cur.Some? && Aged(k.tree)
    ensures var t := k.q.cur.value;
      Accepts(k, MsgSend(k, to, body), y,
        if Target(to) == Tcb(y) && !Intercepted(k, t, Target(to), body) then [Letter(Alias(Tcb(t)), body)] else [])
  {
    hide Deliver, Terminate;
    var a, t := Announce(k, to), k.q.cur.value;
    DeliverAccepts(a, t, Target(to), body, y);
    if Target(to).Tcb? { TerminateAccepts(a, Target(to).t, y); }
  }

  lemma TrapAccepts(k: K, kind: TrapKind, cause: nat, y: Tid)
    requires k.status == Running && k.q.cur.Some? && Aged(k.tree)
    ensures var t := k.q.cur.value;
      Accepts(k, Trap(k, kind, cause), y, if ManagerOf(k, kind, t) == Tcb(y) then [Letter(Alias(Tcb(t)), Word(cause))] else [])
  {
    hide Send, Terminate;
    var t := k.q.cur.value;
    TerminateAccepts(k, t, y);
    SendAccepts(k, Tcb(t), ManagerOf(k, kind, t), Word(cause), y);
    Frames.SendKeeps(k, Tcb(t), ManagerOf(k, kind, t), Word(cause));
  }

  lemma NotifyAccepts(k: K, from: Addr, service: nat, status: nat, y: Tid)
    requires k.status == Running && Live(k.q, SSI) && from != Tcb(SSI)
    ensures Accepts(k, Notify(k, from, service, status), y, if y == SSI then [Report(k, from, service, status)] else [])
  {
    hide Send;
    var l := Report(k, from, service, status);
    SendAccepts(Record(k, Some(l)), from, Tcb(SSI), l.body, y);
  }

  lemma TimerAccepts(k: K, clk: seq<nat>, y: Tid)
    requires k.status == Running && |clk| == 8 && Live(k.q, SSI)
    ensures Accepts(k, TimerInterrupt(k, clk), y,
      if y == SSI && Timing.TickDue(Timing.Count(k.tm, clk)) then [Report(k, Timer, PSEUDOCLOCK_MSG, 0)] else [])
  {
    hide Notify;
    NotifyAccepts(k.(tm := Timing.Count(k.tm, clk)), Timer, PSEUDOCLOCK_MSG, 0, y);
  }

  lemma IrqAccepts(k: K, e: Event, clk: seq<nat>, y: Tid)
    requires Safe(k) && Aged(k.tree) && |clk| == 8 && Enabled(k, e) && IsIrq(e)
    ensures Accepts(k, Handle(k, e, clk), y, AllSentTo(k, e, clk, y))
  {
    hide Safe, Notify, TimerInterrupt, TerminalInterrupt;
    SsiThere(k);
    var k' := Enter(k, clk);
    match e
    case TimerIrq => TimerAccepts(k', clk, y);
    case DeviceIrq(line, dev, status) => NotifyAccepts(k', Raw(Devices.RegisterAddr(line, dev)), INTERRUPT_MSG, status, y);
    case TerminalIrq(dev, trans, recv) => TerminalAccepts(k', dev, trans, recv, y);
    case NoLineIrq =>
  }

  lemma TerminalAccepts(k: K, dev: nat, trans: nat, recv: nat, y: Tid)
    requires k.status == Running && Live(k.q, SSI) && dev < 8
    ensures var base := Devices.RegisterAddr(Devices.INT_TERMINAL, dev);
      Accepts(k, TerminalInterrupt(k, dev, trans, recv), y,
        if y != SSI then []
        else if trans % STATUS_MODULUS == Devices.CHAR_DONE then [Report(k, Raw(base + 0x8), INTERRUPT_MSG, trans)]
        else if recv % STATUS_MODULUS == Devices.CHAR_DONE then [Report(k, Raw(base), INTERRUPT_MSG, recv)]
        else [])
  {
    hide Notify;
    var base := Devices.RegisterAddr(Devices.INT_TERMINAL, dev);
    NotifyAccepts(k, Raw(base + 0x8), INTERRUPT_MSG, trans, y);
    NotifyAccepts(k, Raw(base), INTERRUPT_MSG, recv, y);
  }

  lemma CallAccepts(k: K, e: Event, clk: seq<nat>, y: Tid)
    requires Safe(k) && Aged(k.tree) && |clk| == 8 && Enabled(k, e) && !IsIrq(e) && !e.SsiServes?
    ensures Accepts(k, Handle(k, e, clk), y, AllSentTo(k, e, clk, y))
  {
    hide Safe, MsgSend, Trap;
    var k' := Enter(k, clk);
    match e
    case SendCall(to, body) =>
      AnswerIs(k, to, body);
      MsgSendAccepts(k', to, body, y);
    case TrapRaised(kind, cause) => TrapAccepts(k', kind, cause, y);
    case SsiCalls => ReplyAccepts(k, clk, y);
    case RecvCall(_) =>
  }

  lemma ReplyAccepts(k: K, clk: seq<nat>, y: Tid)
    requires Safe(k) && Aged(k.tree) && |clk| == 8 && Enabled(k, SsiCalls)
    ensures Accepts(k, Handle(k, SsiCalls, clk), y, SentTo(k, SsiCalls, y))
  {
    hide MailOk, PoolOk, TreeOk, Partition, LetterOk, MsgSend;
    var k' := Enter(k, clk);
    if k.ssi.pc == Sending {
      MsgSendAccepts(k', Tcb(k.ssi.outbox[0].to), k.ssi.outbox[0].body, y);
    }
  }

  /** Everything that a running step sends to a living thread is accepted for it, at the end of what it was sent before,
      and nothing else is; a dead thread is sent nothing. */
  lemma EverySendAccepted(r: Run, i: nat, y: Tid)
    requires IsRun(r) && i < |r.events| && r.states[i + 1].status == Running
    ensures |r.clocks[i]| == 8 && Enabled(r.states[i], r.events[i])
    ensures Live(r.states[i].q, y) ==>
      r.states[i + 1].mail.log[y] == r.states[i].mail.log[y] + AllSentTo(r.states[i], r.events[i], r.clocks[i], y)
    ensures !Live(r.states[i].q, y) ==>
      || r.states[i + 1].mail.log[y] == r.states[i].mail.log[y]
      || (r.states[i + 1].tree.birth[y] != r.states[i].tree.birth[y] && r.states[i + 1].mail.log[y] == [])
  {
    hide Step, Safe, Handle, Scheduler, Enabled, AllSentTo, SsiServe;
    RanBefore(r, i);
    var k, e, clk := r.states[i], r.events[i], r.clocks[i];
    if e.SsiServes? {
      ServeSilent(k, y);
      if Live(k.q, y) { BornDead(k, y); }
      NothingSent(k, clk, y);
      StepIsServe(k, clk);
    } else {
      if IsIrq(e) { IrqAccepts(k, e, clk, y); } else { CallAccepts(k, e, clk, y); }
      StepIsHandle(k, e, clk);
      Frames.SchedulerKeeps(Handle(k, e, clk), clk);
      assert k.mail.log[y] + [] == k.mail.log[y];
    }
  }

  lemma StepIsServe(k: K, clk: seq<nat>)
    requires |clk| == 8 && Aged(k.tree) && Enabled(k, SsiServes)
    ensures Step(k, SsiServes, clk) == SsiServe(k)
  {}

  lemma StepIsHandle(k: K, e: Event, clk: seq<nat>)
    requires |clk| == 8 && Aged(k.tree) && Enabled(k, e) && !e.SsiServes?
    ensures Step(k, e, clk) == Scheduler(Handle(k, e, clk), clk)
  {}

  lemma NothingSent(k: K, clk: seq<nat>, y: Tid)
    requires |clk| == 8 && Enabled(k, SsiServes)
    ensures AllSentTo(k, SsiServes, clk, y) == []
  {}

  /** The SSI's code gives a new serial number to a free control block only. */
  lemma BornDead(k: K, y: Tid)
    requires Safe(k) && Enabled(k, SsiServes) && Live(k.q, y)
    ensures Aged(k.tree) && SsiServe(k).tree.birth[y] == k.tree.birth[y]
  {
    hide MailOk, TrapsOk, PoolOk, Partition, LetterOk, Terminate, BrotherBorn, SonBorn, SetManager, ReadLetter;
    hide Devices.RestIndex, Devices.OnWait, Devices.OnInterrupt;
    PartitionMeans(k.q);
    SafeAged(k);
    var l := ReadLetter(k);
    if l.body.Req? && l.from.Tcb? {
      forall kind, m ensures SetManager(k, kind, l.from.t, m).tree == k.tree {
        Frames.SetManagerKeeps(k, kind, l.from.t, m);
      }
      Frames.TerminateKeeps(k, l.from.t);
      if k.q.free != [] { BirthSilent(k, l.from.t, y); }
    }
  }

  // ----- traps and their answers -----

  /** The thread that a thread's control block names for a kind of trap. */
  function TrapField(tr: Traps, kind: TrapKind, t: Tid): (m: Addr) {
    match kind
    case SysBp => tr.sys[t]
    case PgmTrap => tr.pgm[t]
    case TlbTrap => tr.tlb[t]
  }

  /** Exactly the threads of the subtree of t are newly free. */
  ghost predicate FreedSubtree(k: K, k': K, t: Tid) {
    TreeOk(k.tree) && forall x: Tid :: x in k'.q.free <==> x in k.q.free || Under(k.tree, x, t)
  }

  lemma TerminateFrees(k: K, t: Tid)
    requires Safe(k) && Live(k.q, t)
    ensures Aged(k.tree) && FreedSubtree(k, Terminate(k, t), t) && Terminate(k, t).status == k.status
  {
    hide Under, Terminate, PostOrder, Structure;
    SafeAged(k);
    SafeStructure(k);
    TerminateFreesSubtree(k, t);
  }

  lemma SafeStructure(k: K)
    requires Safe(k)
    ensures Structure(k) && Partition(k.q) && TreeOk(k.tree)
  {}

  /** A thread that is not there any more terminates nobody: it is a kernel panic. */
  lemma TerminateDead(k: K, t: Tid)
    requires Aged(k.tree) && !Live(k.q, t)
    ensures Terminate(k, t).status == Panicked
  {}

  /** A trap freezes the thread: it leaves the CPU for wait_queue, until the manager that it names for this kind of trap
      answers. Without a manager it dies with its subtree, and nobody else does. */
  lemma TrapFreezes(r: Run, i: nat)
    requires IsRun(r) && i < |r.events| && r.events[i].TrapRaised? && r.states[i + 1].status == Running
    ensures r.states[i].q.cur.Some?
    ensures var k, k', kind := r.states[i], r.states[i + 1], r.events[i].kind;
      var t := k.q.cur.value; var m := TrapField(k.traps, kind, t);
      if m == Null then FreedSubtree(k, k', t)
      else t in k'.q.wait && k'.mail.frozen[t] && k'.mail.waitingFor[t] == m && k'.q.cur != Some(t) && k'.q.free == k.q.free
           && k'.mail.v0[t] == k.mail.v0[t] && k'.mail.val[t] == k.mail.val[t]
  {
    hide Step, Safe, Handle, Scheduler, FreedSubtree;
    RanBefore(r, i);
    var k, e, clk := r.states[i], r.events[i], r.clocks[i];
    TrapHandled(k, e.kind, e.cause, clk);
    StepIsHandle(k, e, clk);
    Frames.SchedulerKeeps(Handle(k, e, clk), clk);
    SameFreed(k, Handle(k, e, clk), r.states[i + 1], k.q.cur.value);
    Reachable(r, i + 1);
    SafeStructure(r.states[i + 1]);
    PartitionMeans(r.states[i + 1].q);
  }

  lemma SameFreed(k: K, h: K, k': K, t: Tid)
    requires k'.q.free == h.q.free
    ensures FreedSubtree(k, h, t) <==> FreedSubtree(k, k', t)
  {}

  /** What a running thread has received is not touched by a message, not even its own. */
  lemma SendKeepsRunning(k: K, sender: Addr, target: Addr, body: Payload, t: Tid)
    requires k.q.cur == Some(t)
    ensures var r := Send(k, sender, target, body); r.mail.v0[t] == k.mail.v0[t] && r.mail.val[t] == k.mail.val[t]
  {}

  lemma TrapHandled(k: K, kind: TrapKind, cause: nat, clk: seq<nat>)
    requires Safe(k) && |clk| == 8 && Enabled(k, TrapRaised(kind, cause))
    ensures Aged(k.tree)
    ensures var h, t := Handle(k, TrapRaised(kind, cause), clk), k.q.cur.value; var m := TrapField(k.traps, kind, t);
      h.status == Running ==>
        if m == Null then FreedSubtree(k, h, t)
        else t in h.q.wait && h.mail.frozen[t] && h.mail.waitingFor[t] == m && h.q.free == k.q.free
             && h.mail.v0[t] == k.mail.v0[t] && h.mail.val[t] == k.mail.val[t]
  {
    hide Safe, Terminate, Send, FreedSubtree;
    SafeAged(k);
    var k', t := Enter(k, clk), k.q.cur.value;
    SafeFrame(k, k');
    Frames.SendKeeps(k', Tcb(t), TrapField(k.traps, kind, t), Word(cause));
    SendKeepsRunning(k', Tcb(t), TrapField(k.traps, kind, t), Word(cause), t);
    TerminateFrees(k', t);
    SameSubtree(k, k', Terminate(k', t), t);
  }

  lemma SameSubtree(k: K, k': K, h: K, t: Tid)
    requires k'.tree == k.tree && k'.q == k.q
    ensures FreedSubtree(k', h, t) <==> FreedSubtree(k, h, t)
  {}

  /** The two answers of a trap manager. TRAPCONTINUE makes the thread ready again, at the end of the queue; TRAPTERMINATE
      frees exactly its subtree. */
  lemma AnswersObeyed(r: Run, i: nat)
    requires IsRun(r) && i < |r.events| && TrapAnswer(r.states[i], r.events[i]) && r.states[i + 1].status == Running
    ensures var k, k', y := r.states[i], r.states[i + 1], r.events[i].to.t;
      if r.events[i].body == TRAPTERMINATE then Live(k.q, y) && FreedSubtree(k, k', y)
      else k'.q.ready == k.q.ready + [y] && k'.q.cur == k.q.cur && k'.q.free == k.q.free
           && k'.mail == k.mail.(frozen := k.mail.frozen[y := false])
  {
    hide Step, Safe, Handle, Scheduler, FreedSubtree;
    RanBefore(r, i);
    var k, e, clk := r.states[i], r.events[i], r.clocks[i];
    AnswerHandled(k, e, clk);
    StepIsHandle(k, e, clk);
    Frames.SchedulerKeeps(Handle(k, e, clk), clk);
    SameFreed(k, Handle(k, e, clk), r.states[i + 1], e.to.t);
    SchedulerKeepsCur(Handle(k, e, clk), clk);
  }

  lemma SchedulerKeepsCur(h: K, clk: seq<nat>)
    requires |clk| == 8
    ensures h.q.cur.Some? ==> Scheduler(h, clk).q == h.q
  {}

  lemma AnswerHandled(k: K, e: Event, clk: seq<nat>)
    requires Safe(k) && |clk| == 8 && Enabled(k, e) && TrapAnswer(k, e)
    ensures Aged(k.tree)
    ensures var h, y := Handle(k, e, clk), e.to.t;
      && (h.status == Panicked <==> e.body == TRAPTERMINATE && !Live(k.q, y))
      && (h.status == Panicked || h.status == Running)
      && (e.body == TRAPTERMINATE && Live(k.q, y) ==> FreedSubtree(k, h, y))
      && (e.body == TRAPCONTINUE ==>
            h.q.ready == k.q.ready + [y] && h.q.cur == k.q.cur && h.q.free == k.q.free
            && h.mail == k.mail.(frozen := k.mail.frozen[y := false]))
  {
    hide Safe, Terminate, FreedSubtree;
    SafeAged(k);
    var k', y := Enter(k, clk), e.to.t;
    SafeFrame(k, k');
    AnswerIs(k, e.to, e.body);
    if Live(k.q, y) {
      TerminateFrees(k', y);
      SameSubtree(k, k', Terminate(k', y), y);
    } else {
      TerminateDead(k', y);
    }
  }

  // ----- results of system calls -----

  /** MsgSend returns MSGGOOD (0) if and only if its target lives, and MSGNOGOOD (-1) otherwise; and the sender goes on. */
  lemma SendReturns(r: Run, i: nat)
    requires IsRun(r) && i < |r.events| && r.events[i].SendCall? && !TrapAnswer(r.states[i], r.events[i])
    requires r.states[i + 1].status == Running
    ensures r.states[i].q.cur.Some?
    ensures var k, to := r.states[i], r.events[i].to;
      && r.states[i + 1].q.cur == k.q.cur
      && r.states[i + 1].mail.v0[k.q.cur.value] == if to == Magic || (to.Tcb? && Live(k.q, to.t)) then Null else Magic
  {
    hide Step, Safe, Handle, Scheduler;
    RanBefore(r, i);
    var k, e, clk := r.states[i], r.events[i], r.clocks[i];
    SendHandled(k, e.to, e.body, clk);
    StepIsHandle(k, e, clk);
    Frames.SchedulerKeeps(Handle(k, e, clk), clk);
    SchedulerKeepsCur(Handle(k, e, clk), clk);
  }

  lemma SendHandled(k: K, to: Addr, body: Payload, clk: seq<nat>)
    requires Safe(k) && |clk| == 8 && Enabled(k, SendCall(to, body)) && !TrapAnswer(k, SendCall(to, body))
    ensures Aged(k.tree)
    ensures var h := Handle(k, SendCall(to, body), clk);
      h.status == Running ==>
        && h.q.cur == k.q.cur
        && h.mail.v0[k.q.cur.value] == if to == Magic || (to.Tcb? && Live(k.q, to.t)) then Null else Magic
  {
    hide Safe, Send;
    SafeAged(k);
    SsiThere(k);
    AnswerIs(k, to, body);
    Frames.SendKeeps(Announce(Enter(k, clk), to), Tcb(k.q.cur.value), Target(to), body);
  }

  /** The first message that MsgRecv looks for. */
  predicate FirstMatch(s: seq<Msg>, from: Addr, j: nat) {
    && j < |s| && (from == Null ==> j == 0)
    && (from != Null ==> s[j].letter.from == from && forall l :: 0 <= l < j ==> s[l].letter.from != from)
  }

  /** MsgRecv takes the first message that it looks for and returns its sender and payload; if there is none the thread
      waits for it. */
  lemma RecvReceives(r: Run, i: nat)
    requires IsRun(r) && i < |r.events| && r.events[i].RecvCall?
    ensures r.states[i].q.cur.Some?
    ensures var k, k', from := r.states[i], r.states[i + 1], r.events[i].from;
      var t := k.q.cur.value; var s := k.mail.inbox[t];
      && (forall j: nat :: FirstMatch(s, from, j) ==>
            && k'.q.cur == Some(t) && k'.mail.v0[t] == s[j].letter.from && k'.mail.val[t] == s[j].letter.body
            && k'.mail.inbox[t] == s[..j] + s[j + 1..] && k'.mail.got[t] == k.mail.got[t] + [s[j].letter]
            && k'.mail.waitingFor == k.mail.waitingFor)
      && ((forall j: nat :: !FirstMatch(s, from, j)) ==>
            && t in k'.q.wait && k'.mail.waitingFor[t] == from && !k'.mail.frozen[t] && k'.mail.v0[t] == Null
            && k'.mail.inbox[t] == s && k'.mail.got[t] == k.mail.got[t] && k'.mail.val == k.mail.val)
  {
    hide Step, Safe, Handle, Scheduler;
    RanBefore(r, i);
    var k, e, clk := r.states[i], r.events[i], r.clocks[i];
    RecvHandled(k, e.from, clk);
    StepIsHandle(k, e, clk);
    Frames.SchedulerKeeps(Handle(k, e, clk), clk);
    SchedulerKeepsCur(Handle(k, e, clk), clk);
  }

  lemma RecvHandled(k: K, from: Addr, clk: seq<nat>)
    requires Aged(k.tree) && |clk| == 8 && Enabled(k, RecvCall(from))
    ensures var h, t := Handle(k, RecvCall(from), clk), k.q.cur.value; var s := k.mail.inbox[t];
      && (forall j: nat :: FirstMatch(s, from, j) ==>
            && h.q.cur == Some(t) && h.mail.v0[t] == s[j].letter.from && h.mail.val[t] == s[j].letter.body
            && h.mail.inbox[t] == s[..j] + s[j + 1..] && h.mail.got[t] == k.mail.got[t] + [s[j].letter]
            && h.mail.waitingFor == k.mail.waitingFor)
      && ((forall j: nat :: !FirstMatch(s, from, j)) ==>
            && t in h.q.wait && h.mail.waitingFor[t] == from && !h.mail.frozen[t] && h.mail.v0[t] == Null
            && h.mail.inbox[t] == s && h.mail.got[t] == k.mail.got[t] && h.mail.val == k.mail.val)
  {
    var s := k.mail.inbox[k.q.cur.value];
    forall j: nat | FirstMatch(s, from, j) ensures j == if from == Null then 0 else FirstFrom(s, from) {}
    if from == Null && s != [] { assert FirstMatch(s, from, 0); }
    if from != Null && FirstFrom(s, from) < |s| { assert FirstMatch(s, from, FirstFrom(s, from)); }
  }

  // ----- what the scheduler decides -----

  /** The SSI is the one live thread. */
  ghost predicate SsiAlone(q: Queues) {
    forall t: Tid :: Live(q, t) <==> t == SSI
  }

  lemma AloneIsOne(k: K)
    requires Safe(k)
    ensures k.threadCount == 1 <==> SsiAlone(k.q)
    ensures k.threadCount > 0
  {
    hide MailOk, TrapsOk, PoolOk, TreeOk, LetterOk;
    PartitionMeans(k.q);
    if k.threadCount == 1 {
      OnlyOne(k.q, SSI);
    }
    if SsiAlone(k.q) {
      AloneCount(k.q);
    }
  }

  lemma AloneCount(q: Queues)
    requires Partition(q) && SsiAlone(q)
    ensures |q.free| == NT - 1
  {
    hide Partition;
    PartitionMeans(q);
    PartitionSize(q);
    forall t: Tid | t in q.ready || t in q.wait ensures t == SSI {
      assert Live(q, t);
    }
    AllSsi(q.ready);
    AllSsi(q.wait);
    assert q.cur.Some? ==> Live(q, q.cur.value);
    assert Live(q, SSI);
  }

  lemma PartitionSize(q: Queues)
    requires Partition(q)
    ensures |q.ready| + |q.wait| + |q.free| + (if q.cur.Some? then 1 else 0) == NT
  {}

  lemma AllSsi(s: seq<Tid>)
    requires NoDup(s) && forall t: Tid :: t in s ==> t == SSI
    ensures |s| == if SSI in s then 1 else 0
  {
    assert |s| > 0 ==> s[0] in s;
    assert |s| > 1 ==> s[0] != s[1];
    forall i | 0 <= i < |s| ensures s[i] == SSI {
      assert s[i] in s;
    }
  }

  /** What happens after a handler that did not panic. The running thread goes on. If there is none, the head of
      ready_queue is loaded. If there is no ready thread either, the kernel halts if and only if the SSI is the one live
      thread; otherwise it panics if and only if open and lost requests together are a multiple of 2^32; and
      otherwise it waits. */
  lemma SchedulerDecides(r: Run, i: nat)
    requires IsRun(r) && i < |r.events| && !r.events[i].SsiServes? && Handled(r, i).status == Running
    ensures var h, k' := Handled(r, i), r.states[i + 1];
      if h.q.cur.Some? then k'.q == h.q && k'.status == Running
      else if h.q.ready != [] then
        k'.q == h.q.(cur := Some(h.q.ready[0]), ready := h.q.ready[1..]) && k'.status == Running
      else
        && k'.q == h.q
        && (k'.status == Halted <==> SsiAlone(h.q))
        && (k'.status == Panicked <==> !SsiAlone(h.q) && (Accounts.Outstanding(h) + Deadlock.Leaks(r, i + 1)) % U32 == 0)
        && (k'.status == Running || k'.status == Halted || k'.status == Panicked)
  {
    hide Handle, Enabled, Safe, SsiAlone, Accounts.Outstanding, Deadlock.Leaks;
    RanBefore(r, i);
    var k, e, clk := r.states[i], r.events[i], r.clocks[i];
    HandleSafe(k, e, clk);
    AloneIsOne(Handle(k, e, clk));
    Deadlock.DeadlockPanicIff(r, i);
    StepIsHandle(k, e, clk);
  }

  /** The kernel halts exactly when nobody can run and the SSI is alone. */
  lemma HaltIff(r: Run, i: nat)
    requires IsRun(r) && i < |r.events| && !r.events[i].SsiServes? && Handled(r, i).status == Running
    ensures r.states[i + 1].status == Halted <==>
      Handled(r, i).q.cur == None && Handled(r, i).q.ready == [] && SsiAlone(Handled(r, i).q)
  {
    hide Next, Handled, SsiAlone;
    SchedulerDecides(r, i);
  }
}
