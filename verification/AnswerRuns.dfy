/** From the SSI's answer to its receiver: every prepared answer is sent once and in order, and whom it reaches. */
module AnswerRuns {
  import opened Types
  import opened Sequences
  import opened ProcessTree
  import opened ThreadQueues
  import opened Mailboxes
  import opened KernelSpec
  import opened Invariants
  import opened Runs
  import opened SsiRuns
  import Timing
  import Devices
  import Frames
  import opened Theorems

  // ----- answers prepared and sent -----

  /** All answers that the SSI has decided on in the first i steps. */
  ghost function Prepared(r: Run, i: nat): (rs: seq<Reply>)
    requires |r.states| == |r.events| + 1 && i <= |r.events|
  {
    if i == 0 then []
    else Prepared(r, i - 1) + if r.events[i - 1].SsiServes? then r.states[i].ssi.outbox else []
  }

  /** Step i is the MsgSend of an answer. */
  predicate Replies(r: Run, i: nat) {
    i < |r.events| && i < |r.states| && r.events[i].SsiCalls? && r.states[i].ssi.pc == Sending && r.states[i].ssi.outbox != []
  }

  /** All answers that the SSI has passed to MsgSend in the first i steps. */
  ghost function Sent(r: Run, i: nat): (rs: seq<Reply>)
    requires |r.states| == |r.events| + 1 && i <= |r.events|
  {
    if i == 0 then []
    else Sent(r, i - 1) + if Replies(r, i - 1) then [r.states[i - 1].ssi.outbox[0]] else []
  }

  /** How a step moves the answers: serving starts with none left, and MsgSend takes the first. */
  lemma OutboxStep(r: Run, i: nat)
    requires IsRun(r) && i < |r.events|
    ensures var k, k' := r.states[i], r.states[i + 1];
      if r.events[i].SsiServes? then k.ssi.outbox == []
      else if Replies(r, i) then k'.ssi.outbox == k.ssi.outbox[1..]
      else k'.ssi.outbox == k.ssi.outbox
  {
    hide Handle, SsiServe, Scheduler, Partition, MailOk, TrapsOk, PoolOk, TreeOk, LetterOk;
    RanBefore(r, i);
    var k, e, clk := r.states[i], r.events[i], r.clocks[i];
    if !e.SsiServes? {
      Frames.HandleKeeps(k, e, clk);
      Frames.SchedulerKeeps(Handle(k, e, clk), clk);
      if e.SsiCalls? {
        CallOutbox(k, clk);
      }
    }
  }

  lemma CallOutbox(k: K, clk: seq<nat>)
    requires |clk| == 8 && Aged(k.tree) && Enabled(k, SsiCalls)
    ensures Handle(k, SsiCalls, clk).ssi.outbox == if k.ssi.pc == Sending then k.ssi.outbox[1..] else k.ssi.outbox
  {}

  /** What has been prepared is what has been sent, in that order, followed by what is left to send: every
      answer is passed to MsgSend exactly once. */
  lemma {:induction false} OutboxDrains(r: Run, i: nat)
    requires IsRun(r) && i <= |r.events|
    ensures Prepared(r, i) == Sent(r, i) + r.states[i].ssi.outbox
  {
    hide Next;
    if i == 0 {
      BootOutbox(r.boot, r.bootClk);
    } else {
      OutboxDrains(r, i - 1);
      OutboxStep(r, i - 1);
      var sent, out := Sent(r, i - 1), r.states[i - 1].ssi.outbox;
      if Replies(r, i - 1) {
        assert sent + out == (sent + [out[0]]) + out[1..];
      } else {
        assert sent + [] == sent && Prepared(r, i - 1) + [] == Prepared(r, i - 1);
      }
    }
  }

  lemma BootOutbox(boot: nat, clk: seq<nat>)
    requires |clk| == 8
    ensures Scheduler(Boot(boot), clk).ssi.outbox == []
  {}

  /** The step that sends answer number n. */
  ghost function SendStep(r: Run, i: nat, n: nat): (s: nat)
    requires |r.states| == |r.events| + 1 && i <= |r.events| && n < |Sent(r, i)|
    ensures s < i && Replies(r, s) && |Sent(r, s)| == n && r.states[s].ssi.outbox[0] == Sent(r, i)[n]
  {
    if n < |Sent(r, i - 1)| then SendStep(r, i - 1, n) else i - 1
  }

  /** No other step does. */
  lemma SentOnce(r: Run, i: nat, n: nat, s: nat)
    requires |r.states| == |r.events| + 1 && i <= |r.events| && n < |Sent(r, i)|
    requires s < i && Replies(r, s) && |Sent(r, s)| == n
    ensures s == SendStep(r, i, n)
  {
    var z := SendStep(r, i, n);
    if s != z {
      SentGrows(r, (if s < z then s else z) + 1, if s < z then z else s);
    }
  }

  lemma {:induction false} SentGrows(r: Run, i: nat, j: nat)
    requires |r.states| == |r.events| + 1 && i <= j <= |r.events|
    ensures Sent(r, i) <= Sent(r, j)
    decreases j
  {
    if i < j {
      SentGrows(r, i, j - 1);
    }
  }

  lemma {:induction false} PreparedGrows(r: Run, i: nat, j: nat)
    requires |r.states| == |r.events| + 1 && i <= j <= |r.events|
    ensures Prepared(r, i) <= Prepared(r, j)
    decreases j
  {
    if i < j {
      PreparedGrows(r, i, j - 1);
    }
  }

  /** What has been sent under a number is what was prepared under it. */
  lemma PreparedThenSent(r: Run, i: nat, z: nat, n: nat)
    requires IsRun(r) && i <= z <= |r.events| && n < |Prepared(r, i)| && n < |Sent(r, z)|
    ensures Sent(r, z)[n] == Prepared(r, i)[n]
  {
    hide Next, Prepared, Sent;
    PreparedGrows(r, i, z);
    OutboxDrains(r, z);
  }

  // ----- whom an answer reaches -----

  /** The MsgSend of an answer to x appends it to what is accepted for x, if x is alive, and does nothing for
      anybody otherwise. */
  lemma ReplyDelivers(k: K, clk: seq<nat>)
    requires Safe(k) && |clk| == 8 && Enabled(k, SsiCalls) && k.ssi.pc == Sending
    ensures Aged(k.tree)
    ensures var out, h := k.ssi.outbox[0], Handle(k, SsiCalls, clk);
      h.status == Running ==>
        h.mail.log == if Live(k.q, out.to) then k.mail.log[out.to := k.mail.log[out.to] + [Letter(Magic, out.body)]] else k.mail.log
  {
    hide MailOk, PoolOk, TreeOk, Partition, LetterOk;
    SafeAged(k);
  }

  /** The thread that asked, in the incarnation that asked, gets an answer if and only if it is still alive in the
      same incarnation when the answer is sent. Nobody else gets it. (If it is dead nobody gets it; if its
      control block has been used again, the new thread does.) */
  lemma AnswerReachesAsker(r: Run, s: nat, birth: nat)
    requires IsRun(r) && Replies(r, s) && r.states[s + 1].status == Running
    ensures var k, k', a := r.states[s], r.states[s + 1], r.states[s].ssi.outbox[0];
      && ((k'.tree.birth[a.to] == birth && k'.mail.log[a.to] == k.mail.log[a.to] + [Letter(Magic, a.body)])
          <==> (Live(k.q, a.to) && k.tree.birth[a.to] == birth))
      && (forall y: Tid :: y != a.to || !Live(k.q, y) ==> k'.mail.log[y] == k.mail.log[y])
      && k'.tree.birth == k.tree.birth
  {
    hide Handle, Scheduler, Safe, Enabled;
    RanBefore(r, s);
    var k, clk := r.states[s], r.clocks[s];
    ReplyDelivers(k, clk);
    Frames.HandleKeeps(k, SsiCalls, clk);
    Frames.SchedulerKeeps(Handle(k, SsiCalls, clk), clk);
  }

  // ----- what a thread gets from the SSI in its life -----

  /** The answers for x among rs. */
  function To(rs: seq<Reply>, x: Tid): (ps: seq<Payload>) {
    if rs == [] then []
    else To(rs[..|rs| - 1], x) + if rs[|rs| - 1].to == x then [rs[|rs| - 1].body] else []
  }

  lemma {:induction false} ToConcat(a: seq<Reply>, b: seq<Reply>, x: Tid)
    ensures To(a + b, x) == To(a, x) + To(b, x)
  {
    if b == [] {
      assert a + b == a;
    } else {
      ToConcat(a, b[..|b| - 1], x);
      assert (a + b)[..|a + b| - 1] == a + b[..|b| - 1];
    }
  }

  /** The answers prepared for x since it was created. */
  ghost function PreparedFor(r: Run, i: nat, x: Tid): (ps: seq<Payload>)
    requires |r.states| == |r.events| + 1 && i <= |r.events|
  {
    if i == 0 then []
    else
      (if r.states[i].tree.birth[x] != r.states[i - 1].tree.birth[x] then [] else PreparedFor(r, i - 1, x))
      + if r.events[i - 1].SsiServes? then To(r.states[i].ssi.outbox, x) else []
  }

  /** What x has been sent by the SSI since it was created, and what it will be. */
  ghost predicate Owes(k: K, x: Tid, ps: seq<Payload>) {
    From(k.mail.log[x], Magic) + To(k.ssi.outbox, x) == ps
  }

  /** Nothing from the SSI is added to what x has accepted, and no dead thread comes to life. */
  ghost predicate Silent(k: K, k': K, x: Tid) {
    From(k'.mail.log[x], Magic) == From(k.mail.log[x], Magic) && forall t: Tid :: t in k.q.free ==> t in k'.q.free
  }

  lemma SendSilent(k: K, sender: Addr, target: Addr, body: Payload, x: Tid)
    requires sender != Tcb(SSI) && sender != Magic
    ensures Silent(k, Send(k, sender, target, body), x)
  {
    FromAppend(k.mail.log[x], Letter(Alias(sender), body), Magic);
  }

  lemma TerminateSilent(k: K, t: Tid, x: Tid)
    requires Aged(k.tree)
    ensures Silent(k, Terminate(k, t), x)
  {}

  lemma DeliverSilent(k: K, t: Tid, target: Addr, body: Payload, x: Tid)
    requires t != SSI
    ensures Silent(k, Deliver(k, t, target, body), x)
  {
    hide Send;
    SendSilent(k, Tcb(t), target, body, x);
  }

  lemma MsgSendSilent(k: K, to: Addr, body: Payload, x: Tid)
    requires k.q.cur.Some? && k.q.cur.value != SSI && Aged(k.tree)
    ensures Silent(k, MsgSend(k, to, body), x)
  {
    hide Deliver, Terminate;
    var a := Announce(k, to);
    DeliverSilent(a, k.q.cur.value, Target(to), body, x);
    if Target(to).Tcb? {
      TerminateSilent(a, Target(to).t, x);
    }
  }

  lemma TrapSilent(k: K, kind: TrapKind, cause: nat, x: Tid)
    requires k.q.cur.Some? && k.q.cur.value != SSI && Aged(k.tree)
    ensures Silent(k, Trap(k, kind, cause), x)
  {
    hide Send, Terminate;
    var t := k.q.cur.value;
    SendSilent(k, Tcb(t), ManagerOf(k, kind, t), Word(cause), x);
    Frames.SendKeeps(k, Tcb(t), ManagerOf(k, kind, t), Word(cause));
    TerminateSilent(k, t, x);
  }

  lemma RecvSilent(k: K, from: Addr, x: Tid)
    requires k.q.cur.Some?
    ensures Silent(k, Recv(k, from), x)
  {}

  lemma NotifySilent(k: K, from: Addr, service: nat, status: nat, x: Tid)
    requires from != Tcb(SSI) && from != Magic
    ensures Silent(k, Notify(k, from, service, status), x)
  {
    hide Send;
    var l := Report(k, from, service, status);
    SendSilent(Record(k, Some(l)), from, Tcb(SSI), l.body, x);
  }

  lemma TimerSilent(k: K, clk: seq<nat>, x: Tid)
    requires |clk| == 8
    ensures Silent(k, TimerInterrupt(k, clk), x)
  {
    hide Notify;
    NotifySilent(k.(tm := Timing.Count(k.tm, clk)), Timer, PSEUDOCLOCK_MSG, 0, x);
  }

  /** Every handler except the SSI's MsgSend is silent. */
  lemma HandleSilent(k: K, e: Event, clk: seq<nat>, x: Tid)
    requires |clk| == 8 && Aged(k.tree) && Enabled(k, e) && !e.SsiServes? && !(e.SsiCalls? && k.ssi.pc == Sending)
    ensures Silent(k, Handle(k, e, clk), x)
  {
    hide MsgSend, Recv, Trap, Notify, TimerInterrupt;
    var k' := Enter(k, clk);
    match e
    case SendCall(to, body) => MsgSendSilent(k', to, body, x);
    case RecvCall(from) => RecvSilent(k', from, x);
    case TrapRaised(kind, cause) => TrapSilent(k', kind, cause, x);
    case SsiCalls => RecvSilent(k', Null, x);
    case TimerIrq => TimerSilent(k', clk, x);
    case DeviceIrq(line, dev, status) => NotifySilent(k', Raw(Devices.RegisterAddr(line, dev)), INTERRUPT_MSG, status, x);
    case TerminalIrq(dev, trans, recv) =>
      var base := Devices.RegisterAddr(Devices.INT_TERMINAL, dev);
      NotifySilent(k', Raw(base + 0x8), INTERRUPT_MSG, trans, x);
      NotifySilent(k', Raw(base), INTERRUPT_MSG, recv, x);
    case NoLineIrq =>
  }

  /** The SSI's own code between system calls sends nothing, and the thread that it creates starts afresh. */
  lemma ServeSilent(k: K, x: Tid)
    requires Safe(k) && Enabled(k, SsiServes)
    ensures Aged(k.tree) && Quietly(k, SsiServe(k), x)
  {
    hide MailOk, TrapsOk, PoolOk, Partition, Service, LetterOk, Devices.RestIndex, Devices.OnInterrupt;
    SafeAged(k);
    hide ReadLetter;
    var l := ReadLetter(k);
    if l.body.Req? && Queued(k.q, l.from) {
      ServiceSilent(k, l.from.t, l.body.service, l.body.arg, x);
    }
  }

  /** x is as it was, or it is new. */
  ghost predicate Quietly(k: K, r: K, x: Tid) {
    if r.tree.birth[x] == k.tree.birth[x]
    then r.mail.log[x] == k.mail.log[x] && (x in k.q.free ==> x in r.q.free)
    else r.mail.log[x] == [] && To(r.ssi.outbox, x) == []
  }

  lemma ServiceSilent(k: K, t: Tid, service: nat, arg: Addr, x: Tid)
    requires Partition(k.q) && TreeOk(k.tree) && Queued(k.q, Tcb(t)) && (Creates(service) ==> k.q.free != [])
    ensures Quietly(k, Service(k, t, service, arg), x)
  {
    hide Partition, Terminate, Brother, Son, SpecManager, WaitForIo;
    if Creates(service) {
      CreateSilent(k, t, x);
    } else if service == TERMINATE {
      DropSilent(k, t, x);
    } else if service == SPECPRGMGR {
      ManagerSilent(k, PgmTrap, t, arg, x);
    } else if service == SPECTLBMGR {
      ManagerSilent(k, TlbTrap, t, arg, x);
    } else if service == SPECSYSMGR {
      ManagerSilent(k, SysBp, t, arg, x);
    } else if service == WAITFORIO {
      WaitSilent(k, t, arg, x);
    }
  }

  lemma CreateSilent(k: K, t: Tid, x: Tid)
    requires Partition(k.q) && TreeOk(k.tree) && Queued(k.q, Tcb(t)) && k.q.free != []
    ensures Quietly(k, Brother(k, t), x) && Quietly(k, Son(k, t), x)
  {
    hide BrotherBorn, SonBorn;
    BirthSilent(k, t, x);
    PartitionMeans(k.q);
    ToOne(Reply(t, Ptr(Tcb(k.q.free[0]))), x);
  }

  lemma DropSilent(k: K, t: Tid, x: Tid)
    requires Aged(k.tree)
    ensures Quietly(k, Settle(Terminate(k, t), []), x)
  {
    hide Terminate;
    TerminateSilent(k, t, x);
    Frames.TerminateKeeps(k, t);
  }

  lemma ManagerSilent(k: K, kind: TrapKind, t: Tid, m: Addr, x: Tid)
    requires Aged(k.tree)
    ensures Quietly(k, SpecManager(k, kind, t, m), x)
  {
    hide Terminate, SetManager;
    DropSilent(k, t, x);
    Frames.SetManagerKeeps(k, kind, t, m);
  }

  lemma WaitSilent(k: K, t: Tid, arg: Addr, x: Tid)
    requires Aged(k.tree)
    ensures Quietly(k, WaitForIo(k, t, arg), x)
  {
    hide Terminate, Devices.RestIndex, Devices.OnWait;
    DropSilent(k, t, x);
  }

  lemma BirthSilent(k: K, t: Tid, x: Tid)
    requires k.q.free != [] && TreeOk(k.tree)
    ensures k.q.free[0] in k.q.free
    ensures forall b :: b == BrotherBorn(k, t) || b == SonBorn(k, t) ==>
      if x == k.q.free[0] then b.mail.log[x] == [] && b.tree.birth[x] != k.tree.birth[x]
      else b.mail.log[x] == k.mail.log[x] && b.tree.birth[x] == k.tree.birth[x] && (x in k.q.free ==> x in b.q.free)
  {
    assert k.q.free == [k.q.free[0]] + k.q.free[1..];
  }

  // ----- whole runs -----

  /** The MsgSend of an answer, as seen by x. */
  lemma ReplyOwes(r: Run, i: nat, x: Tid)
    requires IsRun(r) && Replies(r, i) && r.states[i + 1].status == Running && Live(r.states[i + 1].q, x)
    ensures var k, k', out := r.states[i], r.states[i + 1], r.states[i].ssi.outbox;
      && Live(k.q, x) && k'.tree.birth == k.tree.birth
      && From(k'.mail.log[x], Magic) == From(k.mail.log[x], Magic) + To([out[0]], x)
      && To(out, x) == To([out[0]], x) + To(k'.ssi.outbox, x)
  {
    hide Next, Step, Safe, Enabled;
    RanBefore(r, i);
    AnswerReachesAsker(r, i, r.states[i].tree.birth[r.states[i].ssi.outbox[0].to]);
    OutboxStep(r, i);
    StillAlive(r, i, x);
    var k, out := r.states[i], r.states[i].ssi.outbox;
    FromAppend(k.mail.log[x], Letter(Magic, out[0].body), Magic);
    assert out == [out[0]] + out[1..];
    ToConcat([out[0]], out[1..], x);
    ToOne(out[0], x);
  }

  lemma ToOne(a: Reply, x: Tid)
    ensures To([a], x) == if a.to == x then [a.body] else []
  {}

  /** Handlers bring nobody to life. */
  lemma StillAlive(r: Run, i: nat, x: Tid)
    requires IsRun(r) && i < |r.events| && !r.events[i].SsiServes? && Live(r.states[i + 1].q, x)
    ensures Live(r.states[i].q, x)
  {
    hide Step, Enabled;
    RanBefore(r, i);
    Reachable(r, i + 1);
    PartitionMeans(r.states[i].q);
    PartitionMeans(r.states[i + 1].q);
    if x in r.states[i].q.free {
      FreeStays(r.states[i], r.events[i], r.clocks[i], x);
    }
  }

  lemma FreeStays(k: K, e: Event, clk: seq<nat>, x: Tid)
    requires Safe(k) && |clk| == 8 && Enabled(k, e) && !e.SsiServes? && x in k.q.free
    ensures Aged(k.tree) && x in Step(k, e, clk).q.free
  {
    hide Safe, Handle, Scheduler, Enabled;
    SafeAged(k);
    if e.SsiCalls? && k.ssi.pc == Sending {
      SameFree(k, clk);
    } else {
      HandleSilent(k, e, clk, x);
    }
    Frames.SchedulerKeeps(Handle(k, e, clk), clk);
  }

  /** Every other step, as seen by x. */
  lemma OtherOwes(r: Run, i: nat, x: Tid)
    requires IsRun(r) && i < |r.events| && !r.events[i].SsiServes? && !Replies(r, i) && Live(r.states[i + 1].q, x)
    ensures var k, k' := r.states[i], r.states[i + 1];
      && Live(k.q, x) && k'.tree.birth == k.tree.birth && k'.ssi.outbox == k.ssi.outbox
      && From(k'.mail.log[x], Magic) == From(k.mail.log[x], Magic)
  {
    hide Handle, Scheduler, Safe;
    RanBefore(r, i);
    StillAlive(r, i, x);
    OutboxStep(r, i);
    var k, e, clk := r.states[i], r.events[i], r.clocks[i];
    HandleSilent(k, e, clk, x);
    Frames.HandleKeeps(k, e, clk);
    Frames.SchedulerKeeps(Handle(k, e, clk), clk);
  }

  /** The SSI's own code, as seen by x. */
  lemma ServeOwes(r: Run, i: nat, x: Tid)
    requires IsRun(r) && i < |r.events| && r.events[i].SsiServes? && Live(r.states[i + 1].q, x)
    ensures var k, k' := r.states[i], r.states[i + 1];
      && k.ssi.outbox == []
      && if k'.tree.birth[x] == k.tree.birth[x] then Live(k.q, x) && k'.mail.log[x] == k.mail.log[x]
         else k'.mail.log[x] == [] && To(k'.ssi.outbox, x) == []
  {
    hide SsiServe, Enabled;
    RanBefore(r, i);
    OutboxStep(r, i);
    Reachable(r, i + 1);
    PartitionMeans(r.states[i].q);
    PartitionMeans(r.states[i + 1].q);
    ServeSilent(r.states[i], x);
  }

  /** For every living client, the answers that have been accepted for it since it was created, followed by those the
      SSI still has to send to it, are exactly the answers that the SSI has prepared for it in its life, in order. */
  lemma {:induction false} AnswersArrive(r: Run, i: nat, x: Tid)
    requires IsRun(r) && i <= |r.events| && r.states[i].status == Running && Live(r.states[i].q, x)
    ensures Owes(r.states[i], x, PreparedFor(r, i, x))
  {
    hide Next, Step, Safe, Enabled, PreparedFor, Owes, Live;
    if i == 0 {
      OwesFromBoot(r, x);
    } else {
      RanBefore(r, i - 1);
      if Live(r.states[i - 1].q, x) { AnswersArrive(r, i - 1, x); }
      OwesStep(r, i - 1, x);
    }
  }

  lemma OwesFromBoot(r: Run, x: Tid)
    requires IsRun(r)
    ensures Owes(r.states[0], x, PreparedFor(r, 0, x))
  {
    BootOwes(r.boot, r.bootClk, x);
  }

  lemma OwesStep(r: Run, i: nat, x: Tid)
    requires IsRun(r) && i < |r.events| && r.states[i + 1].status == Running && Live(r.states[i + 1].q, x)
    requires Live(r.states[i].q, x) ==> Owes(r.states[i], x, PreparedFor(r, i, x))
    ensures Owes(r.states[i + 1], x, PreparedFor(r, i + 1, x))
  {
    hide Next, From, To, Live;
    var ps := PreparedFor(r, i, x);
    assert ps + [] == ps;
    NoAnswers(x);
    if r.events[i].SsiServes? {
      ServeOwes(r, i, x);
    } else if Replies(r, i) {
      ReplyOwes(r, i, x);
    } else {
      OtherOwes(r, i, x);
    }
  }

  lemma NoAnswers(x: Tid)
    ensures To([], x) == [] && From([], Magic) == []
  {}

  lemma BootOwes(boot: nat, clk: seq<nat>, x: Tid)
    requires |clk| == 8
    ensures Owes(Scheduler(Boot(boot), clk), x, [])
  {}

  /** While a client lives, what it has been sent only grows. */
  lemma {:induction false} AcceptedStays(r: Run, i: nat, j: nat, x: Tid)
    requires IsRun(r) && i <= j <= |r.events| && r.states[j].status == Running
    requires Live(r.states[j].q, x) && r.states[j].tree.birth[x] == r.states[i].tree.birth[x] && Live(r.states[i].q, x)
    ensures From(r.states[i].mail.log[x], Magic) <= From(r.states[j].mail.log[x], Magic)
    decreases j
  {
    hide Next, Step, From, To, Safe, Enabled;
    if i < j {
      RanBefore(r, j - 1);
      BirthsGrow(r, i, j - 1, x);
      BirthsGrow(r, j - 1, j, x);
      if r.events[j - 1].SsiServes? {
        ServeOwes(r, j - 1, x);
      } else if Replies(r, j - 1) {
        ReplyOwes(r, j - 1, x);
      } else {
        OtherOwes(r, j - 1, x);
      }
      AcceptedStays(r, i, j - 1, x);
    }
  }

  /** An answer that has reached x is, as long as x lives, one definite element of what the SSI has sent it; and when
      x has received that many answers, it has received this one at that place. */
  lemma AnswerTaken(r: Run, s: nat, j: nat)
    requires IsRun(r) && Replies(r, s) && s < j <= |r.events| && r.states[j].status == Running
    requires var x := r.states[s].ssi.outbox[0].to;
      Live(r.states[s].q, x) && Live(r.states[j].q, x) && r.states[j].tree.birth[x] == r.states[s].tree.birth[x]
    ensures var a := r.states[s].ssi.outbox[0];
      var n, log, got := |From(r.states[s].mail.log[a.to], Magic)|, From(r.states[j].mail.log[a.to], Magic), From(r.states[j].mail.got[a.to], Magic);
      && n < |log| && log[n] == a.body
      && (n < |got| ==> got[n] == a.body)
  {
    hide Next, Step, Safe, Enabled;
    var a := r.states[s].ssi.outbox[0];
    var k, k' := r.states[s], r.states[s + 1];
    RanThrough(r, s + 1, j);
    AnswerReachesAsker(r, s, k.tree.birth[a.to]);
    FromAppend(k.mail.log[a.to], Letter(Magic, a.body), Magic);
    StaysAlive(r, s, a.to);
    AcceptedStays(r, s + 1, j, a.to);
    ChannelsAreFifo(r, j, a.to, Magic);
  }

  /** Sending an answer kills nobody. */
  lemma StaysAlive(r: Run, s: nat, x: Tid)
    requires IsRun(r) && Replies(r, s) && Live(r.states[s].q, x)
    ensures Live(r.states[s + 1].q, x)
  {
    hide Handle, Scheduler, Enabled;
    RanBefore(r, s);
    Reachable(r, s + 1);
    var k, clk := r.states[s], r.clocks[s];
    SameFree(k, clk);
    Frames.SchedulerKeeps(Handle(k, SsiCalls, clk), clk);
    PartitionMeans(k.q);
    PartitionMeans(r.states[s + 1].q);
  }

  lemma SameFree(k: K, clk: seq<nat>)
    requires Safe(k) && |clk| == 8 && Enabled(k, SsiCalls) && k.ssi.pc == Sending
    ensures Aged(k.tree) && Handle(k, SsiCalls, clk).q.free == k.q.free
  {
    hide MailOk, PoolOk, TreeOk, Partition, LetterOk, Deliver;
    SafeAged(k);
    Frames.DeliverKeeps(Enter(k, clk), SSI, Tcb(k.ssi.outbox[0].to), k.ssi.outbox[0].body);
  }

  lemma RanThrough(r: Run, i: nat, j: nat)
    requires IsRun(r) && i <= j <= |r.events| && r.states[j].status == Running
    ensures r.states[i].status == Running
  {
    hide Step;
    if i < j { RanBefore(r, i); }
  }
}
