/** The kernel as a transition function: what each handler does to the state, from its entry to the
    scheduler's decision. `Step` is one handler; PANIC and HALT are absorbing. */
module KernelSpec {
  import opened Types
  import opened Sequences
  import opened ProcessTree
  import opened ThreadQueues
  import opened Mailboxes
  import Timing
  import Devices
  import Slots

  function Panic(k: K): (r: K) {
    k.(status := Panicked)
  }

  /** The address under which a sender appears: the SSI's own is never shown. */
  function Alias(sender: Addr): (a: Addr) {
    if sender == Tcb(SSI) then Magic else sender
  }

  // ----- send and recv -----

  /** A message from s (already aliased) would wake thread r. */
  predicate Wakes(k: K, s: Addr, r: Tid) {
    && !(r in k.q.ready || k.q.cur == Some(r))
    && r in k.q.wait
    && (k.mail.waitingFor[r] == s || k.mail.waitingFor[r] == Null)
  }

  function Send(k: K, sender: Addr, target: Addr, body: Payload): (r: K) {
    var s := Alias(sender);
    if !target.Tcb? || !Live(k.q, target.t) then k
    else if Wakes(k, s, target.t) then
      k.(q := Wake(k.q, target.t), mail := HandOver(k.mail, target.t, Letter(s, body)))
    else if k.mail.free == [] then Panic(k)
    else k.(mail := Enqueue(k.mail, target.t, Letter(s, body)))
  }

  /** MSGGOOD is 0 and MSGNOGOOD is -1. */
  function SendResult(k: K, target: Addr): (r: Addr) {
    if target.Tcb? && Live(k.q, target.t) then Null else Magic
  }

  function Block(k: K, a: Addr, frozen: bool): (r: K)
    requires k.q.cur.Some?
  {
    k.(mail := Await(k.mail, k.q.cur.value, a, frozen), q := Park(k.q))
  }

  function Recv(k: K, from: Addr): (r: K)
    requires k.q.cur.Some?
  {
    var t := k.q.cur.value;
    if from == Null then
      if k.mail.inbox[t] == [] then Block(k, Null, false)
      else k.(mail := Take(k.mail, t, 0))
    else
      var i := FirstFrom(k.mail.inbox[t], from);
      if i == |k.mail.inbox[t]| then Block(k, from, false)
      else
        k.(mail := Take(k.mail, t, i),
           softBlock := if from == Magic then Sub32(k.softBlock, 1) else k.softBlock)
  }

  // ----- terminate -----

  function DismissOne(ms: seq<Addr>, d: Tid): (r: seq<Addr>)
    ensures |r| == |ms|
  {
    var i := IndexOf(ms, Tcb(d));
    if i == |ms| then ms else ms[i := Null]
  }

  /** `delete_manager` for every thread of ds in turn. */
  function Dismiss(ms: seq<Addr>, ds: seq<Tid>): (r: seq<Addr>)
    ensures |r| == |ms|
  {
    if ds == [] then ms else DismissOne(Dismiss(ms, ds[..|ds| - 1]), ds[|ds| - 1])
  }

  /** All threads of ds die at once. The source decrements `soft_block_count` for a dead thread that was
      waiting for the SSI's own address; no thread ever is (see `NobodyAwaitsSsi`). */
  function Kill(k: K, ds: seq<Tid>): (r: K) {
    k.(q := Reap(k.q, ds), tree := Prune(k.tree, Elems(ds)), mail := Discard(k.mail, ds),
       traps := k.traps.(managers := Dismiss(k.traps.managers, ds)),
       threadCount := Sub32(k.threadCount, |ds|))
  }

  /** `recv` records MAGIC_SSI, never the address that it stands for. */
  ghost predicate NobodyAwaitsSsi(m: Mail) {
    forall t: Tid :: m.waitingFor[t] != Tcb(SSI)
  }

  /** `terminate`: the whole subtree dies; a thread that is in no queue is a kernel panic. */
  ghost function Terminate(k: K, t: Tid): (r: K)
    requires Aged(k.tree)
  {
    if Live(k.q, t) then Kill(k, PostOrder(k.tree, t)) else Panic(k)
  }

  // ----- system calls and traps -----

  predicate IsManager(k: K, t: Tid) {
    Tcb(t) in k.traps.managers
  }

  /** A trap manager's answer to a thread that waits for it never reaches `send`. */
  predicate Intercepted(k: K, t: Tid, target: Addr, body: Payload) {
    && IsManager(k, t)
    && target.Tcb? && k.mail.waitingFor[target.t] == Tcb(t)
    && (body == TRAPTERMINATE || body == TRAPCONTINUE)
  }

  function Resume(k: K, r: Tid): (s: K) {
    k.(q := Wake(k.q, r), mail := k.mail.(frozen := k.mail.frozen[r := false]))
  }

  function Target(to: Addr): (r: Addr) {
    if to == Magic then Tcb(SSI) else to
  }

  /** A message to MAGIC_SSI announces a thread that will wait for a service. */
  function Announce(k: K, to: Addr): (r: K) {
    if to == Magic then k.(softBlock := Add32(k.softBlock, 1), reqs := k.reqs + 1) else k
  }

  function Deliver(k: K, t: Tid, target: Addr, body: Payload): (r: K) {
    var k' := Send(k, Tcb(t), target, body);
    if k'.status != Running then k'
    else k'.(mail := k'.mail.(v0 := k'.mail.v0[t := SendResult(k, target)]))
  }

  ghost function MsgSend(k: K, to: Addr, body: Payload): (r: K)
    requires k.q.cur.Some? && Aged(k.tree)
  {
    var t := k.q.cur.value;
    var a := Announce(k, to);
    if !Intercepted(a, t, Target(to), body) then Deliver(a, t, Target(to), body)
    else if body == TRAPTERMINATE then Terminate(a, Target(to).t)
    else Resume(a, Target(to).t)
  }

  function ManagerOf(k: K, kind: TrapKind, t: Tid): (m: Addr) {
    match kind
    case SysBp => k.traps.sys[t]
    case PgmTrap => k.traps.pgm[t]
    case TlbTrap => k.traps.tlb[t]
  }

  /** Without a manager the thread and its subtree die; with one the thread is frozen. */
  ghost function Trap(k: K, kind: TrapKind, cause: nat): (r: K)
    requires k.q.cur.Some? && Aged(k.tree)
  {
    var t := k.q.cur.value;
    var m := ManagerOf(k, kind, t);
    if m == Null then Terminate(k, t)
    else
      var k' := Send(k, Tcb(t), m, Word(cause));
      if k'.status != Running then k' else Block(k', m, true)
  }

  // ----- the SSI -----

  function SsiReceive(k: K): (r: K)
    requires k.q.cur.Some?
  {
    var k' := Recv(k, Null);
    k'.(ssi := k'.ssi.(pc := Got))
  }

  function Settle(k: K, out: seq<Reply>): (r: K) {
    k.(ssi := k.ssi.(outbox := out, pc := if out == [] then AtRecv else Sending))
  }

  /** A new control block for a thread that is about to enter ready_queue. */
  function Spawn(k: K, tree: Tree, n: Tid): (r: K)
    requires k.q.free != [] && n == k.q.free[0]
  {
    k.(q := Claim(k.q), tree := tree, mail := Renew(k.mail, n), tm := Timing.NewClock(k.tm, n),
       traps := k.traps.(sys := k.traps.sys[n := Null], pgm := k.traps.pgm[n := Null], tlb := k.traps.tlb[n := Null]),
       threadCount := Add32(k.threadCount, 1))
  }

  /** CREATEBROTHER: a child of x's parent, or, next to a parentless x, a parentless brother. */
  function BrotherBorn(k: K, x: Tid): (r: K)
    requires k.q.free != []
  {
    var n := k.q.free[0];
    var tr := Fresh(k.tree, n);
    Spawn(k, if tr.parent[x].None? then Befriend(tr, x, n) else Adopt(tr, tr.parent[x].value, n), n)
  }

  /** CREATESON: a child of x that inherits the trap managers. */
  function SonBorn(k: K, x: Tid): (r: K)
    requires k.q.free != []
  {
    var n := k.q.free[0];
    var s := Spawn(k, Adopt(Fresh(k.tree, n), x, n), n);
    s.(traps := s.traps.(sys := s.traps.sys[n := s.traps.sys[x]], pgm := s.traps.pgm[n := s.traps.pgm[x]],
                         tlb := s.traps.tlb[n := s.traps.tlb[x]]))
  }

  function Brother(k: K, x: Tid): (r: K)
    requires k.q.free != []
  {
    Settle(BrotherBorn(k, x), [Reply(x, Ptr(Tcb(k.q.free[0])))])
  }

  function Son(k: K, x: Tid): (r: K)
    requires k.q.free != []
  {
    Settle(SonBorn(k, x), [Reply(x, Ptr(Tcb(k.q.free[0])))])
  }

  /** `add_manager`: at the first entry that is the manager itself or empty. */
  function Enlist(ms: seq<Addr>, m: Addr): (r: seq<Addr>)
    ensures |r| == |ms|
  {
    var i := FirstSlot(ms, m);
    if i == |ms| then ms else ms[i := m]
  }

  function FirstSlot(ms: seq<Addr>, m: Addr): (i: nat)
    ensures i <= |ms|
    ensures i < |ms| ==> ms[i] == m || ms[i] == Null
    ensures forall j :: 0 <= j < i ==> ms[j] != m && ms[j] != Null
  {
    if ms == [] || ms[0] == m || ms[0] == Null then 0 else 1 + FirstSlot(ms[1..], m)
  }

  function SetManager(k: K, kind: TrapKind, x: Tid, m: Addr): (r: K) {
    var tr := k.traps.(managers := Enlist(k.traps.managers, m));
    match kind
    case SysBp => k.(traps := tr.(sys := tr.sys[x := m]))
    case PgmTrap => k.(traps := tr.(pgm := tr.pgm[x := m]))
    case TlbTrap => k.(traps := tr.(tlb := tr.tlb[x := m]))
  }

  ghost function SpecManager(k: K, kind: TrapKind, x: Tid, m: Addr): (r: K)
    requires Aged(k.tree)
  {
    if ManagerOf(k, kind, x) != Null || !Queued(k.q, m) then Settle(Terminate(k, x), [])
    else Settle(SetManager(k, kind, x, m), [Reply(x, Word(0))])
  }

  function SetDevice(k: K, i: nat, r: (Device, Option<Reply>)): (s: K)
    requires i < DEVICES
  {
    Settle(k.(ssi := k.ssi.(dev := k.ssi.dev[i := r.0])), if r.1.Some? then [r.1.value] else [])
  }

  ghost function WaitForIo(k: K, x: Tid, dev: Addr): (r: K)
    requires Aged(k.tree)
  {
    var i := if dev.Raw? then Devices.RestIndex(dev.w) else -1;
    if i == -1 then Settle(Terminate(k, x), [])
    else SetDevice(k, i, Devices.OnWait(k.ssi.dev[i], x))
  }

  /** The clock array has MAXTHREADS - 1 usable entries; a request beyond them is dropped. */
  function WaitForClock(k: K, x: Tid): (r: K) {
    Settle(if |k.ssi.clock| < NT - 1 then k.(ssi := k.ssi.(clock := k.ssi.clock + [x])) else k, [])
  }

  predicate Creates(service: nat) {
    service == CREATEBROTHER || service == CREATESON
  }

  /** The request of a thread x that still exists. */
  ghost function Service(k: K, x: Tid, service: nat, arg: Addr): (r: K)
    requires Aged(k.tree)
    requires Creates(service) ==> k.q.free != []
  {
    if service == WAITFORCLOCK then WaitForClock(k, x)
    else if service == CREATEBROTHER then Brother(k, x)
    else if service == CREATESON then Son(k, x)
    else if service == TERMINATE then Settle(Terminate(k, x), [])
    else if service == SPECPRGMGR then SpecManager(k, PgmTrap, x, arg)
    else if service == SPECTLBMGR then SpecManager(k, TlbTrap, x, arg)
    else if service == SPECSYSMGR then SpecManager(k, SysBp, x, arg)
    else if service == GETCPUTIME then Settle(k, [Reply(x, Word(k.tm.cpuTime[x]))])
    else if service == WAITFORIO then WaitForIo(k, x, arg)
    else Panic(k)
  }

  /** The pseudo-clock message: one reply per registered thread, in order, and an empty array. */
  function Tick(k: K): (r: K) {
    Settle(k.(ssi := k.ssi.(clock := [])), Devices.ClockReplies(k.ssi.clock))
  }

  /** What the SSI can be asked: a service by a thread, a tick by the timer, a status by a device. The
      messages of the interrupt handler are what its entries wrote. */
  predicate LetterOk(written: seq<Option<Letter>>, l: Letter) {
    match l.body
    case Req(service, _) => l.from.Tcb? && l.from.t != SSI && service != PSEUDOCLOCK_MSG && service != INTERRUPT_MSG
    case Irq(service, status, _) =>
      && Some(l) in written
      && ((service == PSEUDOCLOCK_MSG && l.from == Timer) ||
          (service == INTERRUPT_MSG && l.from.Raw? && Devices.RestIndex(l.from.w) != -1 && status < U32))
    case _ => false
  }

  /** The letter that the SSI took from its last MsgRecv. */
  function HeldLetter(k: K): (l: Letter) {
    Letter(k.mail.v0[SSI], k.mail.val[SSI])
  }

  /** What it says when the SSI follows the address in it: an interrupt message says what was written last in its
      slot. */
  ghost function ReadLetter(k: K): (l: Letter)
    ensures l.from == HeldLetter(k).from
    ensures !HeldLetter(k).body.Irq? ==> l == HeldLetter(k)
    ensures HeldLetter(k).body.Irq? ==> l.body.Irq? && l.body.at == HeldLetter(k).body.at
  {
    var h := HeldLetter(k);
    var ss := Slots.Contents(k.written);
    if h.body.Irq? && Slots.Writer(ss, h.body.at) >= 0 then
      var m := ss[Slots.Writer(ss, h.body.at)].value;
      Letter(h.from, Irq(m.service, m.arg, h.body.at))
    else h
  }

  /** The slot still says what was written for this message. */
  ghost predicate Intact(k: K) {
    ReadLetter(k) == HeldLetter(k)
  }

  /** The SSI looks up the sender of an INTERRUPT_MSG in its arrays. For a pseudo-clock message whose slot has
      been rewritten with an interrupt there is no such entry. */
  ghost predicate Readable(k: K) {
    var l := ReadLetter(k);
    l.body.Irq? && l.body.service != PSEUDOCLOCK_MSG ==> l.from.Raw? && Devices.RestIndex(l.from.w) != -1
  }

  /** From the return of MsgRecv to the first reply or the next MsgRecv. */
  ghost function SsiServe(k: K): (r: K)
    requires Aged(k.tree) && LetterOk(k.written, HeldLetter(k)) && Readable(k)
    requires var l := HeldLetter(k);
      l.body.Req? && Queued(k.q, l.from) && Creates(l.body.service) ==> k.q.free != []
  {
    var l := ReadLetter(k);
    match l.body
    case Irq(service, status, _) =>
      if service == PSEUDOCLOCK_MSG then Tick(k)
      else
        var i := Devices.RestIndex(l.from.w);
        SetDevice(k, i, Devices.OnInterrupt(k.ssi.dev[i], status))
    case Req(service, arg) =>
      if Queued(k.q, l.from) then Service(k, l.from.t, service, arg) else Settle(k, [])
  }

  /** One reply leaves through MsgSend. */
  ghost function SsiReply(k: K): (r: K)
    requires k.q.cur.Some? && Aged(k.tree) && k.ssi.outbox != []
  {
    var out := k.ssi.outbox;
    var k' := MsgSend(k, Tcb(out[0].to), out[0].body);
    Settle(k', out[1..])
  }

  // ----- interrupts -----

  /** The handler's entry is over, as far as its message slot is concerned. */
  function Record(k: K, l: Option<Letter>): (r: K) {
    k.(written := k.written + [l])
  }

  /** The message that the present entry of the interrupt handler writes. */
  function Report(k: K, from: Addr, service: nat, status: nat): (l: Letter) {
    Letter(from, Irq(service, status, |k.written| % SLOTS))
  }

  /** A message from the interrupt handler to the SSI. */
  function Notify(k: K, from: Addr, service: nat, status: nat): (r: K) {
    var l := Report(k, from, service, status);
    var n := Record(k, Some(l));
    if Live(n.q, SSI) then Send(n, from, Tcb(SSI), l.body) else Panic(n)
  }

  /** Line 2: the pseudo clock first, then the time slice of the running thread. */
  function TimerInterrupt(k: K, clk: seq<nat>): (r: K)
    requires |clk| == 8
  {
    var c := k.(tm := Timing.Count(k.tm, clk));
    var n := if Timing.TickDue(c.tm) then Notify(c, Timer, PSEUDOCLOCK_MSG, 0) else Record(c, None);
    if n.status != Running then n
    else
      var m := if Timing.TickDue(c.tm) then n.(tm := Timing.Restart(n.tm, clk)) else n;
      if m.q.cur.Some? && m.tm.cpuSlice[m.q.cur.value] >= TIME_SLICE then m.(q := Preempt(m.q))
      else m.(tm := Timing.SetTimer(m.tm))
  }

  /** Lines 3 to 6. */
  function DeviceInterrupt(k: K, line: nat, dev: nat, status: nat): (r: K)
    requires Devices.INT_LOWEST <= line < Devices.INT_TERMINAL && dev < 8
  {
    Notify(k, Raw(Devices.RegisterAddr(line, dev)), INTERRUPT_MSG, status)
  }

  /** Line 7: transmission before reception; any other status sends nothing. */
  function TerminalInterrupt(k: K, dev: nat, trans: nat, recv: nat): (r: K)
    requires dev < 8
  {
    var base := Devices.RegisterAddr(Devices.INT_TERMINAL, dev);
    if trans % STATUS_MODULUS == Devices.CHAR_DONE then Notify(k, Raw(base + 0x8), INTERRUPT_MSG, trans)
    else if recv % STATUS_MODULUS == Devices.CHAR_DONE then Notify(k, Raw(base), INTERRUPT_MSG, recv)
    else Record(k, None)
  }

  // ----- the scheduler -----

  function Scheduler(k: K, clk: seq<nat>): (r: K)
    requires |clk| == 8
  {
    if k.status != Running then k
    else if k.q.cur.Some? then k.(tm := Timing.Load(k.tm, k.q.cur.value, false, clk))
    else if k.q.ready != [] then k.(q := Dispatch(k.q), tm := Timing.Load(k.tm, k.q.ready[0], true, clk))
    else
      var k' := k.(tm := Timing.Idle(k.tm, clk));
      if k.threadCount == 1 then k'.(status := Halted)
      else if k.threadCount > 0 && k.softBlock == 0 then Panic(k')
      else if k.threadCount > 0 then k'   // WAIT for an interrupt
      else Panic(k')
  }

  // ----- one handler -----

  datatype Event =
    | SendCall(to: Addr, body: Payload)
    | RecvCall(from: Addr)
    | TrapRaised(kind: TrapKind, cause: nat)
    | SsiCalls
    | SsiServes
    | TimerIrq
    | DeviceIrq(line: nat, dev: nat, status: nat)
    | TerminalIrq(tdev: nat, trans: nat, recv: nat)
    | NoLineIrq

  predicate ByThread(e: Event) {
    e.SendCall? || e.RecvCall? || e.TrapRaised?
  }

  /** A message that `send` would hand to a thread frozen by a trap. Its reply pointer is not set. */
  predicate WakesFrozen(k: K, s: Addr, target: Addr) {
    target.Tcb? && Wakes(k, s, target.t) && k.mail.frozen[target.t]
  }

  /** The caller's side of MsgSend: the SSI is reached only as MAGIC_SSI and with a request that is not
      one of the interrupt handler's; a manager answers a frozen thread with one of the two trap answers,
      and TRAPCONTINUE goes to a thread that is in wait_queue. */
  predicate SendAllowed(k: K, t: Tid, to: Addr, body: Payload) {
    && to != Tcb(SSI)
    && !body.Irq?
    && (to == Magic ==> body.Req? && body.service != PSEUDOCLOCK_MSG && body.service != INTERRUPT_MSG)
    && (if Intercepted(k, t, Target(to), body)
        then body == TRAPCONTINUE ==> Target(to).t in k.q.wait
        else !WakesFrozen(k, Tcb(t), Target(to)))
  }

  /** A brother of the parentless x is linked next to x's `t_sib`; the node before it must not be in a
      child list. */
  predicate BrotherAllowed(k: K, x: Tid) {
    k.tree.parent[x].None? ==> k.tree.parent[k.tree.kin[x]].None?
  }

  predicate ServeAllowed(k: K) {
    var l := HeldLetter(k);
    l.body.Req? && Queued(k.q, l.from) && Creates(l.body.service) ==>
      k.q.free != [] && (l.body.service == CREATEBROTHER ==> BrotherAllowed(k, l.from.t))
  }

  /** The events that can happen in state k. */
  ghost predicate Enabled(k: K, e: Event) {
    && k.status == Running
    && (ByThread(e) ==> k.q.cur.Some? && k.q.cur.value != SSI)
    && match e
       case SendCall(to, body) => SendAllowed(k, k.q.cur.value, to, body)
       case RecvCall(from) => from != Tcb(SSI)
       case TrapRaised(kind, _) => !WakesFrozen(k, Tcb(k.q.cur.value), ManagerOf(k, kind, k.q.cur.value))
       case SsiCalls => k.q.cur == Some(SSI) && (k.ssi.pc == AtRecv || (k.ssi.pc == Sending && k.ssi.outbox != []))
       case SsiServes => k.q.cur == Some(SSI) && k.ssi.pc == Got && LetterOk(k.written, HeldLetter(k)) && Readable(k) && ServeAllowed(k)
       case DeviceIrq(line, dev, status) =>
         Devices.INT_LOWEST <= line < Devices.INT_TERMINAL && dev < 8 && status < U32
       case TerminalIrq(dev, trans, recv) => dev < 8 && trans < U32 && recv < U32
       case _ => true
  }

  /** The SSI's system calls: its MsgRecv, or one MsgSend of a reply. */
  ghost function SsiCall(k: K): (r: K)
    requires k.q.cur.Some? && Aged(k.tree)
    requires k.ssi.pc == Sending ==> k.ssi.outbox != []
  {
    if k.ssi.pc == Sending then SsiReply(k) else SsiReceive(k)
  }

  /** Handler entry: whoever is running is charged. */
  function Enter(k: K, clk: seq<nat>): (r: K)
    requires |clk| == 8
  {
    if k.q.cur.Some? then k.(tm := Timing.Charge(k.tm, k.q.cur.value, clk)) else k
  }

  /** What the handler of e does before it calls the scheduler. */
  ghost function Handle(k: K, e: Event, clk: seq<nat>): (r: K)
    requires |clk| == 8 && Aged(k.tree) && Enabled(k, e) && !e.SsiServes?
  {
    var k' := Enter(k, clk);
    match e
    case SendCall(to, body) => MsgSend(k', to, body)
    case RecvCall(from) => Recv(k', from)
    case TrapRaised(kind, cause) => Trap(k', kind, cause)
    case SsiCalls => SsiCall(k')
    case TimerIrq => TimerInterrupt(k', clk)
    case DeviceIrq(line, dev, status) => DeviceInterrupt(k', line, dev, status)
    case TerminalIrq(dev, trans, recv) => TerminalInterrupt(k', dev, trans, recv)
    case NoLineIrq => Record(k', None)
  }

  /** One handler followed by the scheduler, or the SSI's own code between two system calls. */
  ghost function Step(k: K, e: Event, clk: seq<nat>): (r: K)
    requires |clk| == 8 && Aged(k.tree) && Enabled(k, e)
  {
    if e.SsiServes? then SsiServe(k) else Scheduler(Handle(k, e, clk), clk)
  }

  // ----- boot -----

  function BootQueues(): (r: Queues) {
    Queues([SSI, TEST], [], seq(NT - 2, i requires 0 <= i < NT - 2 => i + 2), None)
  }

  function BootTree(): (r: Tree) {
    Tree(seq(NT, _ => None), seq(NT, _ => []), seq(NT, i requires 0 <= i < NT => i),
         seq(NT, t => if t == TEST then 1 else 0), 2)
  }

  function BootMail(): (r: Mail) {
    Mail(seq(NT, _ => []), seq(NM, i requires 0 <= i < NM => i), seq(NT, t => if t < 2 then Magic else Null), seq(NT, _ => Null),
         seq(NT, _ => Word(0)), seq(NT, _ => false), seq(NT, _ => []), seq(NT, _ => []))
  }

  function BootTraps(): (r: Traps) {
    Traps(seq(NT, _ => Null), seq(NT, _ => Null), seq(NT, _ => Null), seq(NT, _ => Null))
  }

  function BootSsi(): (r: Ssi) {
    Ssi(AtRecv, [], Devices.AllIdle(), [])
  }

  function BootTime(tod: nat): (r: Time) {
    Time(tod, tod, 0, tod, 0, 0, seq(NT, _ => 0), seq(NT, _ => 0), seq(NT, _ => 0), 0, 0, 0)
  }

  /** The state that `main` builds, before its call of the scheduler. */
  function Boot(tod: nat): (r: K) {
    K(BootQueues(), BootTree(), BootMail(), BootTraps(), BootSsi(), BootTime(tod), 2, 0, 0, [], Running)
  }
}
