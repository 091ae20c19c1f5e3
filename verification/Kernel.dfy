/** The whole kernel on its linked lists, arrays and registers (phase2/src). Every handler is a method, proved
    to do what the transition function `Step` says. */
module Kernel {
  import opened Types
  import opened ProcessTree
  import opened ThreadQueues
  import opened KernelSpec
  import opened Invariants
  import opened Timing
  import opened Exceptions
  import opened SsiTables
  import opened Interrupts
  import opened Slots
  import opened Frames
  import opened Listx
  import opened Store
  import Devices

  const SEND: nat := 1
  const RECV: nat := 2
  const EXC_SYSCALL: nat := 8

  /** The saved processor state at a SYSCALL or BREAK: mode, exception code, argument registers, cause. */
  datatype Exception = Exception(user: bool, code: nat, a0: nat, a1: Addr, a2: Payload, cause: nat)

  predicate IsCall(x: Exception, number: nat) {
    !x.user && x.code == EXC_SYSCALL && x.a0 == number
  }

  /** System calls 1 and 2 in kernel mode; everything else is a trap. */
  function Raised(x: Exception): (e: Event) {
    if IsCall(x, SEND) then SendCall(x.a1, x.a2)
    else if IsCall(x, RECV) then RecvCall(x.a1)
    else TrapRaised(SysBp, x.cause)
  }

  class Machine {
    const nucleus: Nucleus
    const tables: Tables
    const slots: MessageSlots
    var tod: nat      // current_thread_tod
    var start: nat    // start_pseudo_tick
    var pseudo: nat   // pseudo_tick
    var timer: nat    // the interval timer
    var pc: Pc        // where SSI_thread stands
    var outbox: seq<Reply>

    /** The registers hold times modulo 2^32. */
    ghost predicate ClocksTied()
      reads this, nucleus
    {
      var tm := nucleus.k.tm;
      tod == tm.tod % U32 && start == tm.start % U32 && pseudo == tm.pseudo && timer == tm.timer
    }

    ghost predicate SsiTied()
      reads this, nucleus, tables
    {
      |tables.dev| == DEVICES && nucleus.k.ssi == Ssi(pc, outbox, tables.dev, tables.clock)
    }

    /** The message slots hold what the handler wrote. */
    ghost predicate SlotsTied()
      reads this, nucleus, slots, slots.slot
    {
      slots.Filled() && slots.entries == Contents(nucleus.k.written)
    }

    ghost predicate Core()
      reads this, nucleus, nucleus.pools, nucleus.pools.links, tables, tables.devStatus, tables.devTcb, tables.clockTcb,
        slots, slots.slot
    {
      nucleus.Valid() && tables.Valid() && ClocksTied() && SsiTied() && SlotsTied()
    }

    /** The memory is that of the abstract state. */
    ghost predicate Tied()
      reads this, nucleus, nucleus.pools, nucleus.pools.links, tables, tables.devStatus, tables.devTcb, tables.clockTcb,
        slots, slots.slot
    {
      Core() && slots.Valid()
    }

    /** The same between the writing of a message slot and the end of the interrupt handler. */
    ghost predicate Entered()
      reads this, nucleus, nucleus.pools, nucleus.pools.links, tables, tables.devStatus, tables.devTcb, tables.clockTcb,
        slots, slots.slot
    {
      Core() && slots.Open()
    }

    ghost predicate Valid()
      reads this, nucleus, nucleus.pools, nucleus.pools.links, tables, tables.devStatus, tables.devTcb, tables.clockTcb,
        slots, slots.slot
    {
      Tied() && Safe(nucleus.k)
    }

    /** `main` and its call of the scheduler: the first state of a run. */
    constructor (now: nat, clk: seq<nat>)
      requires |clk| == 8
      ensures Valid() && nucleus.k == KernelSpec.Scheduler(Boot(now), clk)
    {
      hide Nucleus.ValidBut, Tables.Valid, Safe, Boot, KernelSpec.Scheduler, Devices.AllIdle;
      BootRest(now);
      tables := new Tables();
      slots := new MessageSlots();
      nucleus := new Nucleus(now);
      tod, start, pseudo, timer := 0, now % U32, 0, 0;
      pc, outbox := AtRecv, [];
      new;
      SchedulerSafe(Boot(now), clk);
      Scheduler(clk);
    }

    // ----- time -----

    /** The first lines of every handler. */
    method Enter(clk: seq<nat>)
      requires Tied() && |clk| == 8
      modifies nucleus`k, nucleus.pools`tcb
      ensures Tied() && nucleus.k == KernelSpec.Enter(old(nucleus.k), clk)
    {
      hide Nucleus.ValidBut, Tables.Valid;
      nucleus.Globals();
      if nucleus.cur.Some? {
        var t := nucleus.cur.value;
        var slice, time := nucleus.Times(t);
        slice := Add32(slice, Sub32(clk[0] % U32, tod));
        time := Add32(time, Sub32(clk[1] % U32, tod));
        nucleus.SetTimes(t, slice, time, Charge(nucleus.k.tm, t, clk));
      }
    }

    /** The end of the scheduler: thread t is loaded. */
    method Load(t: Tid, dispatched: bool, clk: seq<nat>)
      requires Tied() && |clk| == 8
      modifies this, nucleus`k, nucleus.pools`tcb
      ensures Tied() && nucleus.k == old(nucleus.k).(tm := Timing.Load(old(nucleus.k).tm, t, dispatched, clk))
    {
      hide Nucleus.ValidBut, Tables.Valid, MessageSlots.Filled, Contents, Timing.Load;
      LoadedRegisters(nucleus.k.tm, t, dispatched, clk);
      ghost var tm := Timing.Load(nucleus.k.tm, t, dispatched, clk);
      pseudo := Add32(pseudo, Sub32(clk[5] % U32, start));
      start := clk[6] % U32;
      var slice, time := nucleus.Times(t);
      if dispatched {
        slice := 0;
      }
      tod := clk[7] % U32;
      if pseudo >= PSEUDO_CLOCK {
        timer := 1;
      } else {
        timer := Min(Sub32(TIME_SLICE, slice), Sub32(PSEUDO_CLOCK, pseudo));
      }
      nucleus.SetTimes(t, slice, time, tm);
    }

    /** `scheduler` */
    method Scheduler(clk: seq<nat>)
      requires Tied() && |clk| == 8
      modifies this, nucleus, nucleus.pools, nucleus.pools.links
      ensures Tied() && nucleus.k == KernelSpec.Scheduler(old(nucleus.k), clk)
    {
      hide Nucleus.ValidBut, Tables.Valid, Timing.Load;
      nucleus.Globals();
      if nucleus.status != Running { return; }
      if nucleus.cur.Some? {
        Load(nucleus.cur.value, false, clk);
        return;
      }
      var empty := nucleus.NobodyReady();
      if !empty {
        nucleus.Dispatch();
        nucleus.Globals();
        Load(nucleus.cur.value, true, clk);
        return;
      }
      nucleus.Note(nucleus.k.ssi, Timing.Idle(nucleus.k.tm, clk));
      nucleus.Globals();
      if nucleus.threadCount == 1 {
        nucleus.Stop(Halted);
      } else if nucleus.threadCount > 0 && nucleus.softBlock == 0 {
        nucleus.Stop(Panicked);
      } else if nucleus.threadCount == 0 {
        nucleus.Stop(Panicked);
      }
    }

    // ----- exceptions -----

    /** `sysbp_handler` */
    method SysBpHandler(x: Exception, clk: seq<nat>)
      requires Valid() && |clk| == 8 && Enabled(nucleus.k, Raised(x))
      modifies this, nucleus, nucleus.pools, nucleus.pools.links
      ensures Valid() && Aged(old(nucleus.k).tree) && nucleus.k == Step(old(nucleus.k), Raised(x), clk)
    {
      hide Nucleus.ValidBut, Tables.Valid, Safe, Enabled, Step, Call, KernelSpec.Scheduler;
      CallIs(nucleus.k, Raised(x), clk);
      Enter(clk);
      if IsCall(x, SEND) {
        MsgSend(x.a1, x.a2);
      } else if IsCall(x, RECV) {
        Recv(x.a1);
      } else {
        RaiseTrap(SysBp, x.cause);
      }
      Scheduler(clk);
    }

    /** `pgmtrap_handler` and `tlb_handler` */
    method TrapHandler(kind: TrapKind, cause: nat, clk: seq<nat>)
      requires Valid() && |clk| == 8 && Enabled(nucleus.k, TrapRaised(kind, cause)) && kind != SysBp
      modifies this, nucleus, nucleus.pools, nucleus.pools.links
      ensures Valid() && Aged(old(nucleus.k).tree) && nucleus.k == Step(old(nucleus.k), TrapRaised(kind, cause), clk)
    {
      hide Nucleus.ValidBut, Tables.Valid, Safe, Enabled, Step, Call, KernelSpec.Scheduler;
      CallIs(nucleus.k, TrapRaised(kind, cause), clk);
      Enter(clk);
      RaiseTrap(kind, cause);
      Scheduler(clk);
    }

    method MsgSend(to: Addr, body: Payload)
      requires Tied() && Callable(nucleus.k, SendCall(to, body))
      modifies nucleus, nucleus.pools, nucleus.pools.links
      ensures Tied() && nucleus.k == Call(old(nucleus.k), SendCall(to, body))
    {
      hide Nucleus.ValidBut, Tables.Valid, KernelSpec.MsgSend;
      nucleus.Globals();
      MsgSendKeeps(nucleus.k, to, body);
      nucleus.MsgSend(to, body);
    }

    method Recv(from: Addr)
      requires Tied() && Callable(nucleus.k, RecvCall(from))
      modifies nucleus, nucleus.pools, nucleus.pools.links
      ensures Tied() && nucleus.k == Call(old(nucleus.k), RecvCall(from))
    {
      hide Nucleus.ValidBut, Tables.Valid, KernelSpec.Recv;
      nucleus.Globals();
      RecvKeeps(nucleus.k, from);
      nucleus.Recv(from);
    }

    method RaiseTrap(kind: TrapKind, cause: nat)
      requires Tied() && Callable(nucleus.k, TrapRaised(kind, cause))
      modifies nucleus, nucleus.pools, nucleus.pools.links
      ensures Tied() && nucleus.k == Call(old(nucleus.k), TrapRaised(kind, cause))
    {
      hide Nucleus.ValidBut, Tables.Valid, Trap;
      nucleus.Globals();
      TrapKeeps(nucleus.k, kind, cause);
      nucleus.RaiseTrap(kind, cause);
    }

    // ----- interrupts -----

    /** A message to the SSI: it is written to the slot of this entry, and its address is sent. It is a panic if
        the SSI does not exist. */
    method Notify(from: Addr, service: nat, status: nat)
      requires Tied()
      modifies nucleus`k, nucleus`status, nucleus.pools, nucleus.pools.links, slots`entries, slots.slot
      ensures Entered() && nucleus.k == KernelSpec.Notify(old(nucleus.k), from, service, status)
    {
      hide Nucleus.ValidBut, Tables.Valid, MessageSlots.Filled, KernelSpec.Send, Contents;
      ghost var l := Report(nucleus.k, from, service, status);
      ContentsGrow(nucleus.k.written, Some(l));
      SendKeeps(KernelSpec.Record(nucleus.k, Some(l)), from, Tcb(SSI), l.body);
      slots.Write(Slot(service, status));
      nucleus.Record(Some(l));
      var result := nucleus.Send(from, Tcb(SSI), Irq(service, status, slots.i));
      if result == Magic {
        nucleus.Stop(Panicked);
      }
    }

    /** This entry sends nothing. */
    ghost method Skip()
      requires Tied()
      modifies nucleus`k, slots`entries
      ensures Entered() && nucleus.k == Record(old(nucleus.k), None)
    {
      hide Nucleus.ValidBut, Tables.Valid, MessageSlots.Filled, Contents;
      ContentsGrow(nucleus.k.written, None);
      slots.Skip();
      nucleus.Record(None);
    }

    /** Line 2 */
    method TimerInterrupt(clk: seq<nat>)
      requires Tied() && |clk| == 8 && nucleus.k.status == Running
      modifies this, nucleus, nucleus.pools, nucleus.pools.links, slots`entries, slots.slot
      ensures Entered() && nucleus.k == KernelSpec.TimerInterrupt(old(nucleus.k), clk)
    {
      hide Nucleus.ValidBut, Tables.Valid, MessageSlots.Filled, Ticked, Contents;
      ghost var k0 := nucleus.k;
      TimerIs(k0, clk);
      pseudo := Add32(pseudo, Sub32(clk[2] % U32, start));
      start := clk[3] % U32;
      nucleus.Note(k0.ssi, Count(k0.tm, clk));
      TickIfDue(clk);
      nucleus.Globals();
      if nucleus.status == Running {
        SliceOver();
      }
    }

    /** A pseudo-clock message and a new count, when a period is over. */
    method TickIfDue(clk: seq<nat>)
      requires Tied() && |clk| == 8 && nucleus.k.status == Running
      modifies this`pseudo, this`start, nucleus, nucleus.pools, nucleus.pools.links, slots`entries, slots.slot
      ensures Entered() && nucleus.k == Ticked(old(nucleus.k), clk)
    {
      hide Nucleus.ValidBut, Tables.Valid, MessageSlots.Filled, KernelSpec.Notify, Contents;
      if pseudo >= PSEUDO_CLOCK {
        NotifyKeeps(nucleus.k, Timer, PSEUDOCLOCK_MSG, 0);
        Notify(Timer, PSEUDOCLOCK_MSG, 0);
        nucleus.Globals();
        if nucleus.status == Running {
          pseudo := 0;
          start := clk[4] % U32;
          nucleus.Note(nucleus.k.ssi, Restart(nucleus.k.tm, clk));
        }
      } else {
        Skip();
      }
    }

    /** The running thread has used up its slice, or the timer is set again. */
    method SliceOver()
      requires Entered()
      modifies this`timer, nucleus, nucleus.pools.links
      ensures Entered()
      ensures var m := old(nucleus.k);
        nucleus.k == if m.q.cur.Some? && m.tm.cpuSlice[m.q.cur.value] >= TIME_SLICE then m.(q := ThreadQueues.Preempt(m.q))
                     else m.(tm := SetTimer(m.tm))
    {
      hide Nucleus.ValidBut, Tables.Valid;
      nucleus.Globals();
      if nucleus.cur.Some? {
        var slice, time := nucleus.Times(nucleus.cur.value);
        if slice >= TIME_SLICE {
          nucleus.Preempt();
          return;
        }
      }
      timer := Sub32(PSEUDO_CLOCK, pseudo);
      nucleus.Note(nucleus.k.ssi, SetTimer(nucleus.k.tm));
    }

    /** `int_handler` */
    method IntHandler(b: Bus, clk: seq<nat>)
      requires Valid() && |clk| == 8 && nucleus.k.status == Running
      modifies this, nucleus, nucleus.pools, nucleus.pools.links, slots, slots.slot
      ensures Valid() && Aged(old(nucleus.k).tree) && nucleus.k == Interrupted(old(nucleus.k), b, clk)
    {
      hide Nucleus.ValidBut, Tables.Valid, Safe, OnLine, KernelSpec.Scheduler, Step;
      SafeAge(nucleus.k, clk);
      InterruptedIs(nucleus.k, b, clk);
      Enter(clk);
      ServeLine(b, clk);
      slots.Next();
      Scheduler(clk);
    }

    /** The lines in order of priority. */
    method ServeLine(b: Bus, clk: seq<nat>)
      requires Tied() && |clk| == 8 && nucleus.k.status == Running
      modifies this, nucleus, nucleus.pools, nucleus.pools.links, slots`entries, slots.slot
      ensures Entered() && nucleus.k == OnLine(old(nucleus.k), b, Line(b, INT_TIMER), clk)
    {
      hide Tied, Entered, KernelSpec.TimerInterrupt, OnDevice, OnTerminal, Line;
      LineIs(b);
      if b.ip[INT_TIMER] {
        TimerInterrupt(clk);
      } else if b.ip[3] {
        DeviceInterrupt(b, 3);
      } else if b.ip[4] {
        DeviceInterrupt(b, 4);
      } else if b.ip[5] {
        DeviceInterrupt(b, 5);
      } else if b.ip[6] {
        DeviceInterrupt(b, 6);
      } else if b.ip[Devices.INT_TERMINAL] {
        TerminalInterrupt(b);
      } else {
        Skip();
      }
    }

    /** Lines 3 to 6 */
    method DeviceInterrupt(b: Bus, line: nat)
      requires Tied() && Devices.INT_LOWEST <= line < Devices.INT_TERMINAL
      modifies nucleus`k, nucleus`status, nucleus.pools, nucleus.pools.links, slots`entries, slots.slot
      ensures Entered()
      ensures nucleus.k == OnDevice(old(nucleus.k), b, line)
    {
      hide Tied, Entered, KernelSpec.Notify, Chosen, StatusOf;
      var dev := Chosen(b, line);
      Notify(Raw(Devices.RegisterAddr(line, dev)), INTERRUPT_MSG, StatusOf(b, line, dev));
    }

    /** Line 7 */
    method TerminalInterrupt(b: Bus)
      requires Tied()
      modifies nucleus`k, nucleus`status, nucleus.pools, nucleus.pools.links, slots`entries, slots.slot
      ensures Entered() && nucleus.k == OnTerminal(old(nucleus.k), b)
    {
      hide Tied, Entered, Chosen, StatusOf, KernelSpec.TerminalInterrupt;
      var dev := Chosen(b, Devices.INT_TERMINAL);
      Terminal(dev, b.third[dev], StatusOf(b, Devices.INT_TERMINAL, dev));
    }

    method Terminal(dev: nat, trans: nat, recv: nat)
      requires Tied() && dev < 8
      modifies nucleus`k, nucleus`status, nucleus.pools, nucleus.pools.links, slots`entries, slots.slot
      ensures Entered() && nucleus.k == KernelSpec.TerminalInterrupt(old(nucleus.k), dev, trans, recv)
    {
      hide Tied, Entered, KernelSpec.Notify;
      var base := Devices.RegisterAddr(Devices.INT_TERMINAL, dev);
      if trans % STATUS_MODULUS == Devices.CHAR_DONE {
        Notify(Raw(base + 0x8), INTERRUPT_MSG, trans);
      } else if recv % STATUS_MODULUS == Devices.CHAR_DONE {
        Notify(Raw(base), INTERRUPT_MSG, recv);
      } else {
        Skip();
      }
    }

    // ----- the SSI -----

    /** Everything but the SSI's own variables. */
    ghost predicate HalfTied()
      reads this, nucleus, nucleus.pools, nucleus.pools.links, tables, tables.devStatus, tables.devTcb, tables.clockTcb,
        slots, slots.slot
    {
      nucleus.Valid() && tables.Valid() && ClocksTied() && SlotsTied() && slots.Valid()
    }

    /** SSI_thread comes to its next system call, with these replies to send. */
    method Settle(out: seq<Reply>)
      requires HalfTied()
      modifies this`pc, this`outbox, nucleus`k
      ensures Tied()
      ensures var k := old(nucleus.k); nucleus.k == KernelSpec.Settle(k.(ssi := k.ssi.(dev := tables.dev, clock := tables.clock)), out)
    {
      hide Nucleus.ValidBut;
      outbox := out;
      pc := if out == [] then AtRecv else Sending;
      nucleus.Note(Ssi(pc, outbox, tables.dev, tables.clock), nucleus.k.tm);
    }

    /** The SSI's system calls: MsgRecv, or MsgSend of the next reply. */
    method SsiCalls(clk: seq<nat>)
      requires Valid() && |clk| == 8 && Enabled(nucleus.k, Event.SsiCalls)
      modifies this, nucleus, nucleus.pools, nucleus.pools.links
      ensures Valid() && Aged(old(nucleus.k).tree) && nucleus.k == Step(old(nucleus.k), Event.SsiCalls, clk)
    {
      hide Nucleus.ValidBut, Tables.Valid, Safe, Step, SsiReply, SsiReceive, KernelSpec.Scheduler;
      SsiCallIs(nucleus.k, clk);
      Enter(clk);
      if pc == Sending {
        SendReply();
      } else {
        AwaitRequest();
      }
      Scheduler(clk);
    }

    method SendReply()
      requires Tied() && outbox != [] && nucleus.k.q.cur == Some(SSI) && !IsManager(nucleus.k, SSI)
      modifies this, nucleus, nucleus.pools, nucleus.pools.links
      ensures Tied() && Aged(old(nucleus.k).tree) && nucleus.k == SsiReply(old(nucleus.k))
    {
      hide Nucleus.ValidBut, Tables.Valid, KernelSpec.MsgSend;
      nucleus.Globals();
      var r := outbox[0];
      MsgSend(Tcb(r.to), r.body);
      Settle(outbox[1..]);
    }

    method AwaitRequest()
      requires Tied() && nucleus.k.q.cur == Some(SSI)
      modifies this, nucleus, nucleus.pools, nucleus.pools.links
      ensures Tied() && nucleus.k == SsiReceive(old(nucleus.k))
    {
      hide Nucleus.ValidBut, Tables.Valid, KernelSpec.Recv;
      nucleus.Globals();
      Recv(Null);
      pc := Got;
      nucleus.Note(nucleus.k.ssi.(pc := Got), nucleus.k.tm);
    }

    /** SSI_thread from the return of MsgRecv to its next system call. What an interrupt message says is read from
        the handler's slot, whose address is all that the message carries. */
    method Serve(ghost clk: seq<nat>)
      requires Valid() && |clk| == 8 && Enabled(nucleus.k, SsiServes)
      modifies this, nucleus, nucleus.pools, nucleus.pools.links, tables, tables.devStatus, tables.devTcb, tables.clockTcb
      ensures Valid() && Aged(old(nucleus.k).tree) && nucleus.k == Step(old(nucleus.k), SsiServes, clk)
    {
      hide Nucleus.ValidBut, Tables.Valid, MessageSlots.Filled, Safe, ReadLetter, Contents;
      hide KernelSpec.Service, KernelSpec.Settle, KernelSpec.Tick, Devices.RestIndex, SetDevice;
      nucleus.Globals();
      SsiServeSafe(nucleus.k);
      var l := nucleus.Received(SSI);
      if l.body.Irq? {
        ghost var n := HeldWritten(nucleus.k);
        WrittenSlot(nucleus.k.written, n);
        ReadIsWritten(nucleus.k);
        var m := slots.Read(l.body.at, n);
        if m.service == PSEUDOCLOCK_MSG {
          Tick();
        } else {
          Interrupt(Devices.RestIndex(l.from.w), m.arg);
        }
      } else {
        var found := nucleus.Exists(l.from);
        if found {
          Service(l.from.t, l.body.service, l.body.arg);
        } else {
          KeepTables();
          Settle([]);
        }
      }
    }

    method Tick()
      requires Tied()
      modifies this`pc, this`outbox, nucleus`k, tables`clock, tables.clockTcb
      ensures Tied() && nucleus.k == KernelSpec.Tick(old(nucleus.k))
    {
      hide Nucleus.ValidBut, Tables.Valid;
      var out := tables.Tick();
      Settle(out);
    }

    method Interrupt(i: nat, status: nat)
      requires Tied() && i < DEVICES && status < U32
      modifies this`pc, this`outbox, nucleus`k, tables`dev, tables.devStatus, tables.devTcb
      ensures Tied() && nucleus.k == SetDevice(old(nucleus.k), i, Devices.OnInterrupt(old(nucleus.k).ssi.dev[i], status))
    {
      hide Nucleus.ValidBut, Tables.Valid, Devices.OnInterrupt;
      var r := tables.Interrupt(i, status);
      Settle(if r.Some? then [r.value] else []);
    }

    /** The services. */
    method Service(x: Tid, service: nat, arg: Addr)
      requires Tied() && Queued(nucleus.k.q, Tcb(x))
      requires Creates(service) ==> nucleus.k.q.free != []
      requires service == CREATEBROTHER ==> BrotherAllowed(nucleus.k, x)
      modifies this, nucleus, nucleus.pools, nucleus.pools.links, tables, tables.devStatus, tables.devTcb, tables.clockTcb
      ensures Tied() && Aged(old(nucleus.k).tree) && nucleus.k == KernelSpec.Service(old(nucleus.k), x, service, arg)
    {
      hide Nucleus.ValidBut, Tables.Valid, WaitForClock, Brother, Son;
      hide KernelSpec.Terminate, KernelSpec.SpecManager, KernelSpec.WaitForIo, KernelSpec.Settle;
      nucleus.Globals();
      if service == WAITFORCLOCK {
        Register(x);
      } else if service == CREATEBROTHER {
        CreateBrother(x);
      } else if service == CREATESON {
        CreateSon(x);
      } else if service == TERMINATE {
        Terminate(x);
      } else if service == SPECPRGMGR {
        SpecManager(PgmTrap, x, arg);
      } else if service == SPECTLBMGR {
        SpecManager(TlbTrap, x, arg);
      } else if service == SPECSYSMGR {
        SpecManager(SysBp, x, arg);
      } else if service == GETCPUTIME {
        var slice, time := nucleus.Times(x);
        KeepTables();
        Settle([Reply(x, Word(time))]);
      } else if service == WAITFORIO {
        WaitForIo(x, arg);
      } else {
        nucleus.Stop(Panicked);
      }
    }

    method Register(x: Tid)
      requires Tied()
      modifies this`pc, this`outbox, nucleus`k, tables`clock, tables.clockTcb
      ensures Tied() && nucleus.k == WaitForClock(old(nucleus.k), x)
    {
      hide Nucleus.ValidBut, Tables.Valid;
      tables.Register(x);
      Settle([]);
    }

    method CreateBrother(x: Tid)
      requires Tied() && Live(nucleus.k.q, x) && nucleus.k.q.free != [] && BrotherAllowed(nucleus.k, x)
      modifies this, nucleus, nucleus.pools, nucleus.pools.links
      ensures Tied() && nucleus.k == Brother(old(nucleus.k), x)
    {
      hide Nucleus.ValidBut, Tables.Valid, BrotherBorn;
      BirthKeeps(nucleus.k, x);
      var n := nucleus.CreateBrother(x);
      KeepTables();
      Settle([Reply(x, Ptr(Tcb(n)))]);
    }

    method CreateSon(x: Tid)
      requires Tied() && Live(nucleus.k.q, x) && nucleus.k.q.free != []
      modifies this, nucleus, nucleus.pools, nucleus.pools.links
      ensures Tied() && nucleus.k == Son(old(nucleus.k), x)
    {
      hide Nucleus.ValidBut, Tables.Valid, SonBorn;
      BirthKeeps(nucleus.k, x);
      var n := nucleus.CreateSon(x);
      KeepTables();
      Settle([Reply(x, Ptr(Tcb(n)))]);
    }

    method Terminate(x: Tid)
      requires Tied() && Live(nucleus.k.q, x)
      modifies this, nucleus, nucleus.pools, nucleus.pools.links
      ensures Tied() && Aged(old(nucleus.k).tree) && nucleus.k == KernelSpec.Settle(KernelSpec.Terminate(old(nucleus.k), x), [])
    {
      hide Nucleus.ValidBut, Tables.Valid, KernelSpec.Terminate;
      nucleus.Globals();
      TerminateKeeps(nucleus.k, x);
      nucleus.TerminateThread(x);
      KeepTables();
      Settle([]);
    }

    method SpecManager(kind: TrapKind, x: Tid, m: Addr)
      requires Tied() && Live(nucleus.k.q, x)
      modifies this, nucleus, nucleus.pools, nucleus.pools.links
      ensures Tied() && Aged(old(nucleus.k).tree) && nucleus.k == KernelSpec.SpecManager(old(nucleus.k), kind, x, m)
    {
      hide Nucleus.ValidBut, Tables.Valid, KernelSpec.Terminate, KernelSpec.SetManager;
      nucleus.Globals();
      var present := nucleus.Manager(kind, x);
      var found := nucleus.Exists(m);
      if present != Null || !found {
        Terminate(x);
      } else {
        SetManagerKeeps(nucleus.k, kind, x, m);
        nucleus.SetManager(kind, x, m);
        KeepTables();
        Settle([Reply(x, Word(0))]);
      }
    }

    method WaitForIo(x: Tid, dev: Addr)
      requires Tied() && Live(nucleus.k.q, x)
      modifies this, nucleus, nucleus.pools, nucleus.pools.links, tables, tables.devStatus, tables.devTcb
      ensures Tied() && Aged(old(nucleus.k).tree) && nucleus.k == KernelSpec.WaitForIo(old(nucleus.k), x, dev)
    {
      hide Nucleus.ValidBut, Tables.Valid, KernelSpec.Terminate, Devices.RestIndex, Devices.OnWait;
      nucleus.Globals();
      var i := if dev.Raw? then Devices.RestIndex(dev.w) else -1;
      if i == -1 {
        Terminate(x);
      } else {
        var r := tables.Wait(i, x);
        Settle(if r.Some? then [r.value] else []);
      }
    }

    /** The tables are what the state says they are. */
    lemma KeepTables()
      requires Tied()
      ensures var s := nucleus.k.ssi; s.(dev := tables.dev, clock := tables.clock) == s
    {}
  }

  // ----- exceptions as steps -----

  /** What the exception handlers rely on between the entry and the scheduler. */
  ghost predicate Callable(k: K, e: Event) {
    && k.q.cur.Some? && Aged(k.tree)
    && match e
       case SendCall(to, body) => Intercepted(k, k.q.cur.value, Target(to), body) && body == TRAPCONTINUE ==> Target(to).t in k.q.wait
       case RecvCall(from) => from != Tcb(SSI)
       case TrapRaised(kind, _) => ManagerOf(k, kind, k.q.cur.value) != Tcb(SSI)
       case _ => false
  }

  ghost function Call(k: K, e: Event): (r: K)
    requires Callable(k, e)
  {
    match e
    case SendCall(to, body) => KernelSpec.MsgSend(k, to, body)
    case RecvCall(from) => KernelSpec.Recv(k, from)
    case TrapRaised(kind, cause) => Trap(k, kind, cause)
  }

  lemma CallIs(k: K, e: Event, clk: seq<nat>)
    requires Safe(k) && |clk| == 8 && Enabled(k, e) && ByThread(e)
    ensures Aged(k.tree) && Safe(Step(k, e, clk)) && Callable(KernelSpec.Enter(k, clk), e)
    ensures Step(k, e, clk) == KernelSpec.Scheduler(Call(KernelSpec.Enter(k, clk), e), clk)
  {
    hide KernelSpec.MsgSend, KernelSpec.Recv, Trap, KernelSpec.Scheduler, Safe;
    SafeAge(k, clk);
    StepSafe(k, e, clk);
  }

  lemma SsiCallIs(k: K, clk: seq<nat>)
    requires Safe(k) && |clk| == 8 && Enabled(k, Event.SsiCalls)
    ensures Aged(k.tree) && Safe(Step(k, Event.SsiCalls, clk)) && !IsManager(k, SSI)
    ensures Step(k, Event.SsiCalls, clk) ==
      KernelSpec.Scheduler(if k.ssi.pc == Sending then SsiReply(KernelSpec.Enter(k, clk)) else SsiReceive(KernelSpec.Enter(k, clk)), clk)
  {
    hide SsiReply, SsiReceive, KernelSpec.Scheduler, Safe;
    SafeAge(k, clk);
    StepSafe(k, Event.SsiCalls, clk);
  }

  // ----- interrupts as steps -----

  /** The tick of a timer interrupt. */
  function Ticked(c: K, clk: seq<nat>): (m: K)
    requires |clk| == 8
  {
    var n := if TickDue(c.tm) then KernelSpec.Notify(c, Timer, PSEUDOCLOCK_MSG, 0) else Record(c, None);
    if n.status == Running && TickDue(c.tm) then n.(tm := Restart(n.tm, clk)) else n
  }

  lemma TimerIs(k: K, clk: seq<nat>)
    requires |clk| == 8
    ensures var m := Ticked(k.(tm := Count(k.tm, clk)), clk);
      KernelSpec.TimerInterrupt(k, clk) ==
        if m.status != Running then m
        else if m.q.cur.Some? && m.tm.cpuSlice[m.q.cur.value] >= TIME_SLICE then m.(q := ThreadQueues.Preempt(m.q))
        else m.(tm := SetTimer(m.tm))
  {}

  /** What is done for a line; 8 stands for none. */
  function OnLine(k: K, b: Bus, line: nat, clk: seq<nat>): (r: K)
    requires |clk| == 8 && INT_TIMER <= line <= 8
  {
    if line == INT_TIMER then KernelSpec.TimerInterrupt(k, clk)
    else if line < Devices.INT_TERMINAL then OnDevice(k, b, line)
    else if line == Devices.INT_TERMINAL then OnTerminal(k, b)
    else Record(k, None)
  }

  function OnDevice(k: K, b: Bus, line: nat): (r: K)
    requires Devices.INT_LOWEST <= line < Devices.INT_TERMINAL
  {
    var dev := Chosen(b, line);
    KernelSpec.DeviceInterrupt(k, line, dev, StatusOf(b, line, dev))
  }

  function OnTerminal(k: K, b: Bus): (r: K) {
    var dev := Chosen(b, Devices.INT_TERMINAL);
    KernelSpec.TerminalInterrupt(k, dev, b.third[dev], StatusOf(b, Devices.INT_TERMINAL, dev))
  }

  /** The step for the interrupts pending on the bus. */
  ghost function Interrupted(k: K, b: Bus, clk: seq<nat>): (r: K)
    requires |clk| == 8 && Aged(k.tree) && k.status == Running
  {
    ServedEnabled(k, b);
    Step(k, Served(b), clk)
  }

  lemma ServedEnabled(k: K, b: Bus)
    requires k.status == Running
    ensures Enabled(k, Served(b)) && !Served(b).SsiServes?
  {
    hide Devices.WhichDevice, Devices.RestIndex;
  }

  lemma InterruptedIs(k: K, b: Bus, clk: seq<nat>)
    requires Safe(k) && |clk| == 8 && k.status == Running
    ensures Aged(k.tree) && Safe(Interrupted(k, b, clk)) && KernelSpec.Enter(k, clk).status == Running
    ensures Interrupted(k, b, clk) == KernelSpec.Scheduler(OnLine(KernelSpec.Enter(k, clk), b, Line(b, INT_TIMER), clk), clk)
  {
    hide Chosen, StatusOf, Safe, Line, KernelSpec.TimerInterrupt, KernelSpec.DeviceInterrupt, KernelSpec.TerminalInterrupt, KernelSpec.Scheduler;
    SafeAge(k, clk);
    ServedEnabled(k, b);
    StepSafe(k, Served(b), clk);
  }

  // ----- what the parts leave alone -----

  lemma SafeAge(k: K, clk: seq<nat>)
    requires Safe(k) && |clk| == 8
    ensures Aged(k.tree) && Aged(KernelSpec.Enter(k, clk).tree)
    ensures forall t: Tid, kind :: ManagerOf(k, kind, t) != Tcb(SSI)
    ensures !IsManager(k, SSI)
    ensures k.ssi.pc == Sending <==> k.ssi.outbox != []
  {
    forall t: Tid, kind ensures ManagerOf(k, kind, t) != Tcb(SSI) {
      assert ClientAddr(k.traps.sys[t]) && ClientAddr(k.traps.pgm[t]) && ClientAddr(k.traps.tlb[t]);
    }
  }

  /** What the registers hold when t is loaded. */
  lemma LoadedRegisters(tm: Time, t: Tid, dispatched: bool, clk: seq<nat>)
    requires |clk| == 8
    ensures var r, slice := Timing.Load(tm, t, dispatched, clk), if dispatched then 0 else tm.cpuSlice[t];
      && r.pseudo == Add32(tm.pseudo, Sub32(clk[5] % U32, tm.start % U32)) && r.start == clk[6] && r.tod == clk[7]
      && r.timer == (if r.pseudo >= PSEUDO_CLOCK then 1 else Min(Sub32(TIME_SLICE, slice), Sub32(PSEUDO_CLOCK, r.pseudo)))
      && r.cpuSlice == tm.cpuSlice[t := slice] && r.cpuTime == tm.cpuTime
  {}

  lemma WrittenSlot(written: seq<Option<Letter>>, n: nat)
    requires n < |written| && written[n].Some? && written[n].value.body.Irq?
    ensures Contents(written)[n].Some?
  {}

  lemma BootRest(now: nat)
    ensures Safe(Boot(now)) && Boot(now).ssi == BootSsi() && Boot(now).tm == BootTime(now) && Boot(now).written == []
  {
    BootSafe(now);
  }
}
