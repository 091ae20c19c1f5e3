/** The soft-block counter against the requests that the SSI has not answered yet. */
module Accounts {
  import opened Types
  import opened Sequences
  import opened ProcessTree
  import opened ThreadQueues
  import opened Mailboxes
  import opened KernelSpec
  import opened Invariants
  import Timing
  import Devices
  import Frames

  /** A letter that stands for an open request: a request queued at the SSI, or an answer of the
      SSI that its receiver has not taken yet. */
  predicate Counts(t: Tid, l: Letter) {
    if t == SSI then l.body.Req? else l.from == Magic
  }

  ghost function Weight(t: Tid, s: seq<Msg>): (n: nat) {
    if s == [] then 0
    else Weight(t, s[..|s| - 1]) + if Counts(t, s[|s| - 1].letter) then 1 else 0
  }

  ghost function Pending(inbox: seq<seq<Msg>>, n: nat): (r: nat)
    requires n <= |inbox| && n <= NT
  {
    if n == 0 then 0 else Pending(inbox, n - 1) + Weight(n - 1, inbox[n - 1])
  }

  ghost function Waiting(dev: seq<Device>): (n: nat) {
    if dev == [] then 0 else Waiting(dev[..|dev| - 1]) + if dev[|dev| - 1].Waiter? then 1 else 0
  }

  /** The SSI is working on a request. */
  ghost function Busy(k: K): (n: nat) {
    if k.ssi.pc == Got && SSI !in k.q.wait && k.mail.val[SSI].Req? then 1 else 0
  }

  /** Requests queued at the SSI, in its hands, parked for a tick or a device, on their way back,
      or back and not yet taken. */
  ghost function Outstanding(k: K): (n: nat) {
    Pending(k.mail.inbox, NT) + Busy(k) + |k.ssi.outbox| + |k.ssi.clock| + Waiting(k.ssi.dev)
  }

  /** A number as a 32-bit counter shows it. */
  function Wrapped(n: nat): (r: nat)
    ensures n < U32 ==> r == n
  {
    n % U32
  }

  lemma WrappedMoves(n: nat)
    ensures Add32(Wrapped(n), 1) == Wrapped(n + 1)
    ensures n > 0 ==> Sub32(Wrapped(n), 1) == Wrapped(n - 1)
  {}

  /** While the kernel runs, the 32-bit counter is the number of open requests and d more, modulo 2^32. It covers
      them all as long as there have been fewer than 2^32 requests. */
  ghost predicate Balance(k: K, d: nat) {
    && Outstanding(k) + d <= k.reqs
    && (k.status == Running ==> k.softBlock == Wrapped(Outstanding(k) + d))
    && (k.reqs < U32 ==> Outstanding(k) + d <= k.softBlock <= k.reqs)
  }

  ghost predicate Covered(k: K) {
    exists d: nat :: Balance(k, d)
  }

  // ----- sums -----

  lemma {:induction false} WeightConcat(t: Tid, a: seq<Msg>, b: seq<Msg>)
    ensures Weight(t, a + b) == Weight(t, a) + Weight(t, b)
  {
    if b == [] {
      assert a + b == a;
    } else {
      WeightConcat(t, a, b[..|b| - 1]);
      assert (a + b)[..|a + b| - 1] == a + b[..|b| - 1];
    }
  }

  lemma WeightRemove(t: Tid, s: seq<Msg>, i: nat)
    requires i < |s|
    ensures Weight(t, RemoveAt(s, i)) + (if Counts(t, s[i].letter) then 1 else 0) == Weight(t, s)
  {
    assert s == s[..i] + [s[i]] + s[i + 1..];
    WeightConcat(t, s[..i] + [s[i]], s[i + 1..]);
    WeightConcat(t, s[..i], [s[i]]);
    WeightConcat(t, s[..i], s[i + 1..]);
  }

  lemma {:induction false} PendingUpdate(inbox: seq<seq<Msg>>, n: nat, t: Tid, s: seq<Msg>)
    requires |inbox| == NT && n <= NT
    ensures Pending(inbox[t := s], n) + (if t < n then Weight(t, inbox[t]) else 0)
         == Pending(inbox, n) + (if t < n then Weight(t, s) else 0)
  {
    if n > 0 {
      PendingUpdate(inbox, n - 1, t, s);
    }
  }

  /** The open requests among the messages of the threads of ds. */
  ghost function Weights(inbox: seq<seq<Msg>>, ds: seq<Tid>): (n: nat)
    requires |inbox| == NT
  {
    if ds == [] then 0 else Weights(inbox, ds[..|ds| - 1]) + Weight(ds[|ds| - 1], inbox[ds[|ds| - 1]])
  }

  lemma {:induction false} PendingEmptied(inbox: seq<seq<Msg>>, ds: seq<Tid>)
    requires |inbox| == NT && NoDup(ds)
    ensures Pending(Emptied(inbox, Elems(ds)), NT) + Weights(inbox, ds) == Pending(inbox, NT)
  {
    if ds == [] {
      assert Emptied(inbox, Elems(ds)) == inbox;
    } else {
      var n := |ds| - 1;
      var es, d := ds[..n], ds[n];
      PendingEmptied(inbox, es);
      assert d !in es;
      assert Elems(ds) == Elems(es) + {d};
      assert Emptied(inbox, Elems(ds)) == Emptied(inbox, Elems(es))[d := []];
      PendingUpdate(Emptied(inbox, Elems(es)), NT, d, []);
    }
  }

  lemma {:induction false} WaitingUpdate(dev: seq<Device>, i: nat, d: Device)
    requires i < |dev|
    ensures Waiting(dev[i := d]) + (if dev[i].Waiter? then 1 else 0) == Waiting(dev) + (if d.Waiter? then 1 else 0)
  {
    var n := |dev| - 1;
    if i == n {
      assert dev[i := d][..n] == dev[..n];
    } else {
      WaitingUpdate(dev[..n], i, d);
      assert dev[i := d][..n] == dev[..n][i := d];
    }
  }

  // ----- where open requests are lost -----

  /** The answers and requests that die with the subtree of x. */
  ghost function LostWith(k: K, x: Tid): (n: nat)
    requires Aged(k.tree)
  {
    if Live(k.q, x) then Weights(k.mail.inbox, PostOrder(k.tree, x)) else 0
  }

  /** An answer of the SSI that reaches no inbox: its receiver is dead, or gets it handed over. */
  predicate HandedOverOrDropped(k: K, to: Tid) {
    !Live(k.q, to) || Wakes(k, Magic, to)
  }

  ghost function LostInService(k: K, x: Tid, service: nat, arg: Addr): (n: nat)
    requires Aged(k.tree)
  {
    if service == WAITFORCLOCK then (if |k.ssi.clock| < NT - 1 then 0 else 1)
    else if service == TERMINATE then 1 + LostWith(k, x)
    else if service == SPECPRGMGR then (if RefusesManager(k, PgmTrap, x, arg) then 1 + LostWith(k, x) else 0)
    else if service == SPECTLBMGR then (if RefusesManager(k, TlbTrap, x, arg) then 1 + LostWith(k, x) else 0)
    else if service == SPECSYSMGR then (if RefusesManager(k, SysBp, x, arg) then 1 + LostWith(k, x) else 0)
    else if service == WAITFORIO then
      var i := if arg.Raw? then Devices.RestIndex(arg.w) else -1;
      if i == -1 then 1 + LostWith(k, x) else if k.ssi.dev[i].Waiter? then 1 else 0
    else 0
  }

  predicate RefusesManager(k: K, kind: TrapKind, x: Tid, m: Addr) {
    ManagerOf(k, kind, x) != Null || !Queued(k.q, m)
  }

  /** How many open requests a step loses without a decrement of `soft_block_count`: with the inboxes of the dead; an
      answer taken with ANYMESSAGE; an answer handed over directly or to nobody; a request of a thread that is
      not found; a clock request beyond the array; a request that ends in a termination; and the waiter
      that another waiter of the same device overwrites. */
  ghost function Lost(k: K, e: Event): (n: nat)
    requires Aged(k.tree) && Enabled(k, e)
  {
    match e
    case SendCall(to, body) =>
      if Intercepted(k, k.q.cur.value, Target(to), body) && body == TRAPTERMINATE then LostWith(k, Target(to).t) else 0
    case RecvCall(from) =>
      var s := k.mail.inbox[k.q.cur.value];
      if from == Null && s != [] && s[0].letter.from == Magic then 1 else 0
    case TrapRaised(kind, _) => if ManagerOf(k, kind, k.q.cur.value) == Null then LostWith(k, k.q.cur.value) else 0
    case SsiCalls => if k.ssi.pc == Sending && HandedOverOrDropped(k, k.ssi.outbox[0].to) then 1 else 0
    case SsiServes =>
      var l := HeldLetter(k);
      if !l.body.Req? then 0
      else if !Queued(k.q, l.from) then 1
      else LostInService(k, l.from.t, l.body.service, l.body.arg)
    case _ => 0
  }

  // ----- what each part of a handler does to the open requests -----

  lemma EnqueueOutstanding(m: Mail, r: Tid, l: Letter)
    requires m.free != []
    ensures Pending(Enqueue(m, r, l).inbox, NT) == Pending(m.inbox, NT) + if Counts(r, l) then 1 else 0
  {
    var x := Msg(m.free[0], l);
    WeightConcat(r, [x], m.inbox[r]);
    WeightConcat(r, m.inbox[r], [x]);
    PendingUpdate(m.inbox, NT, r, Enqueue(m, r, l).inbox[r]);
  }

  /** A letter that opens a request or keeps one open: it is queued, or it is in the SSI's hands. */
  predicate Arrives(k: K, sender: Addr, target: Addr, body: Payload) {
    && target.Tcb? && Live(k.q, target.t)
    && (target.t == SSI || !Wakes(k, Alias(sender), target.t))
    && Counts(target.t, Letter(Alias(sender), body))
  }

  lemma SendOutstanding(k: K, sender: Addr, target: Addr, body: Payload)
    requires Safe(k) && k.status == Running
    ensures var r := Send(k, sender, target, body);
      && r.softBlock == k.softBlock && r.reqs == k.reqs
      && Outstanding(r) == Outstanding(k) + if r.status == Running && Arrives(k, sender, target, body) then 1 else 0
  {
    hide Pending, Waiting, Partition, MailOk, TrapsOk, PoolOk, TreeOk, LetterOk;
    if target.Tcb? && Live(k.q, target.t) {
      var r, l := target.t, Letter(Alias(sender), body);
      if Wakes(k, l.from, r) {
        WokenSsi(k.q, r);
      } else if k.mail.free != [] {
        EnqueueOutstanding(k.mail, r, l);
      }
    }
  }

  lemma WokenSsi(q: Queues, r: Tid)
    requires Partition(q) && r in q.wait
    ensures SSI in Wake(q, r).wait <==> SSI in q.wait && r != SSI
  {
    PartitionMeans(q);
    RemoveIsMinus(q.wait, r);
  }

  lemma TakeOutstanding(m: Mail, t: Tid, i: nat)
    requires i < |m.inbox[t]|
    ensures Pending(Take(m, t, i).inbox, NT) + (if Counts(t, m.inbox[t][i].letter) then 1 else 0) == Pending(m.inbox, NT)
  {
    WeightRemove(t, m.inbox[t], i);
    PendingUpdate(m.inbox, NT, t, RemoveAt(m.inbox[t], i));
  }

  lemma KillOutstanding(k: K, ds: seq<Tid>)
    requires SSI !in ds && NoDup(ds)
    ensures Outstanding(Kill(k, ds)) + Weights(k.mail.inbox, ds) == Outstanding(k)
  {
    PendingEmptied(k.mail.inbox, ds);
  }

  // ----- every step keeps the balance -----

  lemma RecvBalance(k: K, from: Addr, d: nat)
    requires Safe(k) && k.status == Running && Balance(k, d) && k.q.cur.Some? && k.q.cur.value != SSI
    ensures var s := k.mail.inbox[k.q.cur.value];
      Balance(Recv(k, from), d + if from == Null && s != [] && s[0].letter.from == Magic then 1 else 0)
  {
    hide Wrapped, Pending, Waiting;
    var t := k.q.cur.value;
    WrappedMoves(Outstanding(k) + d);
    var i := if from == Null then 0 else FirstFrom(k.mail.inbox[t], from);
    if i < |k.mail.inbox[t]| {
      TakeOutstanding(k.mail, t, i);
    }
  }

  lemma TerminateOutstanding(k: K, t: Tid)
    requires Safe(k) && t != SSI
    ensures Aged(k.tree)
    ensures var r := Terminate(k, t);
      && Outstanding(r) + LostWith(k, t) == Outstanding(k) && r.softBlock == k.softBlock && r.reqs == k.reqs
      && (Live(k.q, t) ==> r.status == k.status)
  {
    if Live(k.q, t) {
      KillSafe(k, t);
      SubtreeAlive(k, t);
      KillOutstanding(k, PostOrder(k.tree, t));
    }
  }

  lemma TerminateBalance(k: K, t: Tid, d: nat)
    requires Safe(k) && Balance(k, d) && t != SSI && k.status == Running
    ensures Aged(k.tree) && Balance(Terminate(k, t), d + LostWith(k, t))
  {
    hide Wrapped, Safe, Outstanding, LostWith, Kill;
    TerminateOutstanding(k, t);
    TerminateStatus(k, t);
  }

  lemma TerminateStatus(k: K, t: Tid)
    requires Aged(k.tree)
    ensures Terminate(k, t).status == if Live(k.q, t) then k.status else Panicked
  {}

  lemma DeliverOutstanding(k: K, t: Tid, target: Addr, body: Payload)
    requires Safe(k) && k.status == Running
    ensures var r := Deliver(k, t, target, body);
      && r.softBlock == k.softBlock && r.reqs == k.reqs
      && Outstanding(r) == Outstanding(k) + if r.status == Running && Arrives(k, Tcb(t), target, body) then 1 else 0
  {
    hide Safe, Send, Pending, Waiting, Arrives;
    SendOutstanding(k, Tcb(t), target, body);
  }

  lemma ResumeBalance(k: K, r: Tid, d: nat)
    requires Safe(k) && Balance(k, d) && r in k.q.wait && r != SSI
    ensures Balance(Resume(k, r), d)
  {
    hide Wrapped, Pending, Waiting;
    WokenSsi(k.q, r);
  }

  lemma DeliverBalance(k: K, t: Tid, to: Addr, body: Payload, d: nat)
    requires Safe(k) && k.status == Running && Balance(k, d) && k.q.cur == Some(t) && t != SSI && to != Tcb(SSI)
    requires to == Magic ==> body.Req?
    ensures Balance(Deliver(Announce(k, to), t, Target(to), body), d)
  {
    hide Wrapped, Safe, Deliver, Wakes, Pending, Waiting;
    var a := Announce(k, to);
    SafeFrame(k, a);
    DeliverOutstanding(a, t, Target(to), body);
    SsiThere(k);
    WrappedMoves(Outstanding(k) + d);
    assert Outstanding(a) == Outstanding(k);
  }

  lemma MsgSendBalance(k: K, to: Addr, body: Payload, d: nat)
    requires Safe(k) && k.status == Running && Balance(k, d) && k.q.cur.Some? && k.q.cur.value != SSI
    requires SendAllowed(k, k.q.cur.value, to, body)
    ensures Aged(k.tree)
    ensures Balance(MsgSend(k, to, body),
      d + if Intercepted(k, k.q.cur.value, Target(to), body) && body == TRAPTERMINATE then LostWith(k, Target(to).t) else 0)
  {
    hide Wrapped, Safe, Deliver, Terminate, LostWith, Balance;
    SafeAged(k);
    var t := k.q.cur.value;
    if !Intercepted(Announce(k, to), t, Target(to), body) {
      DeliverBalance(k, t, to, body, d);
    } else {
      AwaitedIsClient(k, Target(to), t);
      assert to != Magic;
      if body == TRAPTERMINATE {
        TerminateBalance(k, to.t, d);
      } else {
        ResumeBalance(k, to.t, d);
      }
    }
  }

  /** Nobody's answer is awaited by the SSI. */
  lemma AwaitedIsClient(k: K, target: Addr, t: Tid)
    requires Safe(k) && target.Tcb? && k.mail.waitingFor[target.t] == Tcb(t)
    ensures target != Tcb(SSI)
  {}

  lemma TrapBalance(k: K, kind: TrapKind, cause: nat, d: nat)
    requires Safe(k) && k.status == Running && Balance(k, d) && k.q.cur.Some? && k.q.cur.value != SSI
    ensures Aged(k.tree)
    ensures Balance(Trap(k, kind, cause),
      d + if ManagerOf(k, kind, k.q.cur.value) == Null then LostWith(k, k.q.cur.value) else 0)
  {
    hide Wrapped, Safe, Terminate, Outstanding, Send, LostWith, Block, Arrives, Balance;
    var t := k.q.cur.value;
    var m := ManagerOf(k, kind, t);
    ManagerIsClient(k, kind, t);
    SafeAged(k);
    if m == Null {
      TerminateBalance(k, t, d);
    } else {
      ReportBalance(k, m, cause, d);
    }
  }

  lemma ManagerIsClient(k: K, kind: TrapKind, t: Tid)
    requires Safe(k)
    ensures ClientAddr(ManagerOf(k, kind, t))
  {}

  lemma ReportBalance(k: K, m: Addr, cause: nat, d: nat)
    requires Safe(k) && k.status == Running && Balance(k, d) && k.q.cur.Some? && k.q.cur.value != SSI && ClientAddr(m)
    ensures var s := Send(k, Tcb(k.q.cur.value), m, Word(cause)); Balance(if s.status == Running && s.q.cur.Some? then Block(s, m, true) else s, d)
    ensures Send(k, Tcb(k.q.cur.value), m, Word(cause)).q.cur == k.q.cur
  {
    hide Safe, Outstanding, Send, Block, Wrapped, Wakes;
    var t := k.q.cur.value;
    SendOutstanding(k, Tcb(t), m, Word(cause));
    Frames.SendKeeps(k, Tcb(t), m, Word(cause));
    BlockOutstanding(Send(k, Tcb(t), m, Word(cause)), m, true);
  }

  lemma BlockOutstanding(k: K, a: Addr, frozen: bool)
    requires k.q.cur.Some? && k.q.cur.value != SSI
    ensures var r := Block(k, a, frozen);
      Outstanding(r) == Outstanding(k) && r.softBlock == k.softBlock && r.reqs == k.reqs && r.status == k.status
  {
    hide Pending, Waiting;
  }

  lemma SsiReceiveBalance(k: K, d: nat)
    requires Safe(k) && k.status == Running && Balance(k, d) && k.q.cur == Some(SSI) && k.ssi.pc == AtRecv
    ensures Balance(SsiReceive(k), d)
  {
    hide Wrapped, Pending, Waiting;
    PartitionMeans(k.q);
    if k.mail.inbox[SSI] != [] {
      TakeOutstanding(k.mail, SSI, 0);
    }
  }

  lemma SsiReplyBalance(k: K, d: nat)
    requires Safe(k) && k.status == Running && Balance(k, d) && k.q.cur == Some(SSI) && k.ssi.pc == Sending
    ensures Aged(k.tree) && k.ssi.outbox != []
    ensures Balance(SsiReply(k), d + if HandedOverOrDropped(k, k.ssi.outbox[0].to) then 1 else 0)
  {
    hide Wrapped, Pending, Waiting, Deliver, Wakes, MailOk, PoolOk, TreeOk, Partition, LetterOk;
    SafeAged(k);
    var r := k.ssi.outbox[0];
    DeliverOutstanding(k, SSI, Tcb(r.to), r.body);
    DeliverKeepsSsi(k, SSI, Tcb(r.to), r.body);
    assert Arrives(k, Tcb(SSI), Tcb(r.to), r.body) <==> !HandedOverOrDropped(k, r.to);
  }

  lemma DeliverKeepsSsi(k: K, t: Tid, target: Addr, body: Payload)
    ensures Deliver(k, t, target, body).ssi == k.ssi
  {}

  lemma SpawnOutstanding(k: K, tree: Tree)
    requires Structure(k) && k.q.free != []
    ensures Pending(Spawn(k, tree, k.q.free[0]).mail.inbox, NT) == Pending(k.mail.inbox, NT)
  {
    assert k.q.free[0] in k.q.free && Dormant(k, k.q.free[0]);
    assert k.mail.inbox[k.q.free[0] := []] == k.mail.inbox;
  }

  lemma SettleOutstanding(k: K, out: seq<Reply>)
    ensures Outstanding(Settle(k, out)) == Outstanding(k) - Busy(k) - |k.ssi.outbox| + |out|
    ensures Settle(k, out).softBlock == k.softBlock && Settle(k, out).reqs == k.reqs && Settle(k, out).status == k.status
  {}

  /** The SSI works on a request: it has nothing left to send. */
  ghost predicate Working(k: K) {
    Safe(k) && k.status == Running && k.q.cur == Some(SSI) && Busy(k) == 1
  }

  lemma CreateBalance(k: K, x: Tid, d: nat)
    requires Working(k) && Balance(k, d) && k.q.free != []
    ensures Balance(Brother(k, x), d) && Balance(Son(k, x), d)
  {
    hide Wrapped, Pending, Waiting;
    var n := k.q.free[0];
    var tr := Fresh(k.tree, n);
    SpawnOutstanding(k, Adopt(tr, x, n));
    SpawnOutstanding(k, if tr.parent[x].None? then Befriend(tr, x, n) else Adopt(tr, tr.parent[x].value, n));
  }

  lemma DropBalance(k: K, x: Tid, d: nat)
    requires Working(k) && Balance(k, d) && x != SSI && Live(k.q, x)
    ensures Aged(k.tree) && Balance(Settle(Terminate(k, x), []), d + 1 + LostWith(k, x))
  {
    hide Wrapped, Outstanding, Busy, LostWith, Settle, Safe, Terminate;
    SafeAged(k);
    NothingLeft(k);
    TerminateOutstanding(k, x);
    TerminateKeepsWork(k, x);
    SettleOutstanding(Terminate(k, x), []);
  }

  lemma NothingLeft(k: K)
    requires Working(k)
    ensures k.ssi.outbox == []
  {}

  lemma TerminateKeepsWork(k: K, x: Tid)
    requires Safe(k) && k.q.cur == Some(SSI) && x != SSI
    ensures Aged(k.tree) && Busy(Terminate(k, x)) == Busy(k) && Terminate(k, x).ssi == k.ssi
  {
    if Live(k.q, x) {
      KillSafe(k, x);
    }
  }

  lemma SpecManagerBalance(k: K, kind: TrapKind, x: Tid, m: Addr, d: nat)
    requires Working(k) && Balance(k, d) && x != SSI && Live(k.q, x)
    ensures Aged(k.tree)
    ensures Balance(SpecManager(k, kind, x, m), d + if RefusesManager(k, kind, x, m) then 1 + LostWith(k, x) else 0)
  {
    hide Wrapped, Pending, Waiting, LostWith, Terminate, MailOk, PoolOk, TreeOk, LetterOk;
    SafeAged(k);
    DropBalance(k, x, d);
  }

  lemma WaitForIoBalance(k: K, x: Tid, arg: Addr, d: nat)
    requires Working(k) && Balance(k, d) && x != SSI && Live(k.q, x)
    ensures Aged(k.tree)
    ensures var i := if arg.Raw? then Devices.RestIndex(arg.w) else -1;
      Balance(WaitForIo(k, x, arg), d + if i == -1 then 1 + LostWith(k, x) else if k.ssi.dev[i].Waiter? then 1 else 0)
  {
    hide Wrapped, Pending, Waiting, LostWith, Terminate, MailOk, PoolOk, TreeOk, LetterOk, Devices.RestIndex;
    SafeAged(k);
    DropBalance(k, x, d);
    if arg.Raw? && Devices.RestIndex(arg.w) != -1 {
      var i := Devices.RestIndex(arg.w);
      WaitingUpdate(k.ssi.dev, i, Devices.OnWait(k.ssi.dev[i], x).0);
    }
  }

  lemma ClockBalance(k: K, x: Tid, d: nat)
    requires Working(k) && Balance(k, d)
    ensures Balance(WaitForClock(k, x), d + if |k.ssi.clock| < NT - 1 then 0 else 1)
  {
    hide Wrapped, Pending, Waiting;
  }

  lemma AnswerBalance(k: K, r: Reply, d: nat)
    requires Working(k) && Balance(k, d)
    ensures Balance(Settle(k, [r]), d) && Balance(Panic(k), d)
  {
    hide Wrapped, Pending, Waiting;
  }

  lemma ServiceBalance(k: K, x: Tid, service: nat, arg: Addr, d: nat)
    requires Working(k) && Balance(k, d) && Queued(k.q, Tcb(x))
    requires Creates(service) ==> k.q.free != []
    ensures Aged(k.tree) && Balance(Service(k, x, service, arg), d + LostInService(k, x, service, arg))
  {
    hide Wrapped, Safe, Balance, LostWith, WaitForClock, Brother, Son, Terminate, SpecManager, WaitForIo, Settle, Devices.RestIndex;
    NotItself(k, x);
    if service == WAITFORCLOCK {
      ClockBalance(k, x, d);
    } else if Creates(service) {
      CreateBalance(k, x, d);
    } else if service == TERMINATE {
      DropBalance(k, x, d);
    } else if service == SPECPRGMGR {
      SpecManagerBalance(k, PgmTrap, x, arg, d);
    } else if service == SPECTLBMGR {
      SpecManagerBalance(k, TlbTrap, x, arg, d);
    } else if service == SPECSYSMGR {
      SpecManagerBalance(k, SysBp, x, arg, d);
    } else if service == WAITFORIO {
      WaitForIoBalance(k, x, arg, d);
    } else {
      AnswerBalance(k, Reply(x, Word(k.tm.cpuTime[x])), d);
    }
  }

  lemma SsiServeBalance(k: K, d: nat)
    requires Safe(k) && Balance(k, d) && Enabled(k, SsiServes)
    ensures Aged(k.tree) && Balance(SsiServe(k), d + Lost(k, SsiServes))
  {
    hide Wrapped, Pending, Waiting, Service, LostInService, MailOk, PoolOk, TreeOk, TrapsOk, Devices.RestIndex, ReadLetter;
    SafeAged(k);
    NotInWait(k);
    var l := ReadLetter(k);
    if l.body.Req? {
      if Queued(k.q, l.from) {
        ServiceBalance(k, l.from.t, l.body.service, l.body.arg, d);
      }
    } else if l.body.service != PSEUDOCLOCK_MSG {
      var i := Devices.RestIndex(l.from.w);
      WaitingUpdate(k.ssi.dev, i, Devices.OnInterrupt(k.ssi.dev[i], l.body.status).0);
    }
  }

  lemma RecordBalance(k: K, l: Option<Letter>, d: nat)
    requires Balance(k, d)
    ensures Balance(Record(k, l), d)
  {
    hide Wrapped;
  }

  lemma NotifyBalance(k: K, from: Addr, service: nat, status: nat, d: nat)
    requires Safe(k) && k.status == Running && Balance(k, d) && !from.Tcb? && from != Magic
    requires (service == PSEUDOCLOCK_MSG || service == INTERRUPT_MSG) && status < U32
    ensures Balance(Notify(k, from, service, status), d)
  {
    hide Wrapped, Safe, Send, Pending, Waiting, Wakes;
    var l := Report(k, from, service, status);
    RecordSafe(k, Some(l));
    SendOutstanding(Record(k, Some(l)), from, Tcb(SSI), l.body);
    SsiThere(k);
  }

  lemma TimerBalance(k: K, clk: seq<nat>, d: nat)
    requires Safe(k) && k.status == Running && Balance(k, d) && |clk| == 8
    ensures Balance(TimerInterrupt(k, clk), d)
  {
    hide Wrapped, Safe, Notify, Pending, Waiting;
    var c := k.(tm := Timing.Count(k.tm, clk));
    SafeFrame(k, c);
    RecordBalance(c, None, d);
    NotifyBalance(c, Timer, PSEUDOCLOCK_MSG, 0, d);
  }

  lemma TerminalBalance(k: K, dev: nat, trans: nat, recv: nat, d: nat)
    requires Safe(k) && k.status == Running && Balance(k, d) && dev < 8 && trans < U32 && recv < U32
    ensures Balance(TerminalInterrupt(k, dev, trans, recv), d)
  {
    hide Wrapped, Safe, Notify, Balance;
    var base := Devices.RegisterAddr(Devices.INT_TERMINAL, dev);
    RecordBalance(k, None, d);
    NotifyBalance(k, Raw(base + 0x8), INTERRUPT_MSG, trans, d);
    NotifyBalance(k, Raw(base), INTERRUPT_MSG, recv, d);
  }

  lemma HandleBalance(k: K, e: Event, clk: seq<nat>, d: nat)
    requires Safe(k) && Balance(k, d) && |clk| == 8 && Enabled(k, e) && !e.SsiServes?
    ensures Aged(k.tree) && Balance(Handle(k, e, clk), d + Lost(k, e))
  {
    hide Wrapped, Safe, Balance, LostWith, MsgSend, Recv, Trap, SsiReply, SsiReceive, TimerInterrupt, TerminalInterrupt, Notify;
    var k' := Enter(k, clk);
    SafeAged(k);
    SafeFrame(k, k');
    EnterBalance(k, clk, d);
    match e
    case SendCall(to, body) => MsgSendBalance(k', to, body, d);
    case RecvCall(from) => RecvBalance(k', from, d);
    case TrapRaised(kind, cause) => TrapBalance(k', kind, cause, d);
    case SsiCalls =>
      if k.ssi.pc == Sending { SsiReplyBalance(k', d); } else { SsiReceiveBalance(k', d); }
    case TimerIrq => TimerBalance(k', clk, d);
    case DeviceIrq(line, dev, status) =>
      NotifyBalance(k', Raw(Devices.RegisterAddr(line, dev)), INTERRUPT_MSG, status, d);
    case TerminalIrq(dev, trans, recv) => TerminalBalance(k', dev, trans, recv, d);
    case NoLineIrq => RecordBalance(k', None, d);
  }

  lemma EnterBalance(k: K, clk: seq<nat>, d: nat)
    requires Balance(k, d) && |clk| == 8
    ensures Balance(Enter(k, clk), d)
    ensures forall x: Tid :: Aged(k.tree) ==> LostWith(Enter(k, clk), x) == LostWith(k, x)
  {
    hide Wrapped;
  }

  lemma StepBalance(k: K, e: Event, clk: seq<nat>, d: nat)
    requires Safe(k) && Balance(k, d) && |clk| == 8 && Enabled(k, e)
    ensures Aged(k.tree) && Balance(Step(k, e, clk), d + Lost(k, e))
  {
    hide Wrapped, Safe, Balance, SsiServe, Handle, Scheduler, Lost, Enabled;
    SafeAged(k);
    if e.SsiServes? {
      SsiServeBalance(k, d);
    } else {
      HandleBalance(k, e, clk, d);
      SchedulerBalance(Handle(k, e, clk), clk, d + Lost(k, e));
    }
  }

  lemma SchedulerBalance(h: K, clk: seq<nat>, d: nat)
    requires Balance(h, d) && |clk| == 8
    ensures Balance(Scheduler(h, clk), d)
  {
    hide Wrapped;
  }

  lemma HandleCovered(k: K, e: Event, clk: seq<nat>)
    requires Safe(k) && Covered(k) && |clk| == 8 && Enabled(k, e) && !e.SsiServes?
    ensures Aged(k.tree) && Covered(Handle(k, e, clk))
  {
    hide Safe, Handle, Outstanding, Lost;
    SafeAged(k);
var d: nat :| Balance(k, d);
    HandleBalance(k, e, clk, d);
  }

  lemma StepCovered(k: K, e: Event, clk: seq<nat>)
    requires Safe(k) && Covered(k) && |clk| == 8 && Enabled(k, e)
    ensures Aged(k.tree) && Covered(Step(k, e, clk))
  {
    hide Safe, Step, Outstanding, Lost;
    SafeAged(k);
    var d: nat :| Balance(k, d);
    StepBalance(k, e, clk, d);
  }

  lemma BootBalance(tod: nat)
    ensures Balance(Boot(tod), 0) && Outstanding(Boot(tod)) == 0
  {
    hide Wrapped;
    PendingNone(BootMail().inbox, NT);
    WaitingNone(BootSsi().dev);
  }

  lemma {:induction false} PendingNone(inbox: seq<seq<Msg>>, n: nat)
    requires |inbox| == NT && n <= NT && forall t: Tid :: inbox[t] == []
    ensures Pending(inbox, n) == 0
  {
    if n > 0 {
      PendingNone(inbox, n - 1);
      assert inbox[n - 1] == [];
    }
  }

  lemma {:induction false} WaitingNone(dev: seq<Device>)
    requires forall i :: 0 <= i < |dev| ==> dev[i] == Device.Idle
    ensures Waiting(dev) == 0
  {
    if dev != [] {
      WaitingNone(dev[..|dev| - 1]);
    }
  }
}
