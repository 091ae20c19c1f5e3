/** What the kernel's clocks show in a run, in terms of the clock readings alone. */
module ClockRuns {
  import opened Types
  import opened ProcessTree
  import opened ThreadQueues
  import opened KernelSpec
  import opened Invariants
  import opened Runs
  import opened SsiRuns
  import opened Theorems
  import opened Timing
  import opened Effects
  import Devices
  import Frames

  /** The subtraction of wrapped readings is exact modulo 2^32. */
  lemma ElapsedModulo(now: nat, since: nat)
    requires since <= now
    ensures Elapsed(now, since) == (now - since) % U32
  {
    var a, b := now / U32, since / U32;
    assert now - since == (a - b) * U32 + (now % U32 - since % U32);
  }

  lemma AddModulo(n: nat, x: int, d: nat)
    requires n == x % U32
    ensures Add32(n, d % U32) == (x + d) % U32
  {
    var q, p := x / U32, d / U32;
    assert x + d == (q + p) * U32 + (n + d % U32);
  }

  // ----- one step -----

  lemma ServeClock(k: K)
    requires Safe(k) && Enabled(k, SsiServes)
    ensures Aged(k.tree)
    ensures var k' := SsiServe(k);
      || (k'.tm == k.tm && k'.tree.birth == k.tree.birth)
      || (k.q.free != [] && k'.tm == NewClock(k.tm, k.q.free[0]) && k'.tree.birth == k.tree.birth[k.q.free[0] := k.tree.next])
  {
    hide Safe, Terminate, BrotherBorn, SonBorn, SetManager, ReadLetter;
    hide Devices.RestIndex, Devices.OnWait, Devices.OnInterrupt;
    SafeAged(k);
    var l := ReadLetter(k);
    if l.body.Req? && l.from.Tcb? {
      forall kind, m ensures SetManager(k, kind, l.from.t, m).tm == k.tm && SetManager(k, kind, l.from.t, m).tree == k.tree {
        Frames.SetManagerKeeps(k, kind, l.from.t, m);
      }
      Frames.TerminateKeeps(k, l.from.t);
      if k.q.free != [] {
        Frames.BirthKeeps(k, l.from.t);
        BirthSerial(k, l.from.t);
      }
    }
  }

  lemma BirthSerial(k: K, x: Tid)
    requires k.q.free != []
    ensures BrotherBorn(k, x).tree.birth == k.tree.birth[k.q.free[0] := k.tree.next]
    ensures SonBorn(k, x).tree.birth == k.tree.birth[k.q.free[0] := k.tree.next]
  {}

  /** The interval timer's part of the clock: the pseudo clock is counted forward and, if a period is over, restarted. */
  lemma TimerClock(k: K, clk: seq<nat>)
    requires |clk| == 8 && k.status == Running
    ensures var h := TimerInterrupt(k, clk); var p := Add32(k.tm.pseudo, Elapsed(clk[2], k.tm.start));
      h.status == Running ==>
        && h.tm.used == k.tm.used && h.tm.cpuSlice == k.tm.cpuSlice && h.tm.tod == k.tm.tod && h.tm.origin == k.tm.origin
        && (if p >= PSEUDO_CLOCK then h.tm.pseudo == 0 && h.tm.start == clk[4] && h.tm.ticks == k.tm.ticks + 1
            else h.tm.pseudo == p && h.tm.start == clk[3] && h.tm.ticks == k.tm.ticks)
        && (if k.q.cur.Some? && k.tm.cpuSlice[k.q.cur.value] >= TIME_SLICE
            then h.q.cur == None && h.q.ready != [] && h.q.ready[|h.q.ready| - 1] == k.q.cur.value
            else h.q.cur == k.q.cur && h.tm.timer == PSEUDO_CLOCK - h.tm.pseudo)
  {
    hide Notify;
    var c := k.(tm := Count(k.tm, clk));
    Frames.NotifyKeeps(c, Timer, PSEUDOCLOCK_MSG, 0);
    NotifyKeepsCur(c, Timer, PSEUDOCLOCK_MSG, 0);
  }

  lemma NotifyKeepsCur(k: K, from: Addr, service: nat, status: nat)
    ensures Notify(k, from, service, status).q.cur == k.q.cur
  {
    hide Send;
    var l := Report(k, from, service, status);
    Frames.SendKeeps(Record(k, Some(l)), from, Tcb(SSI), l.body);
  }

  /** A thread is loaded if there is one, and newly dispatched if it was not running before. */
  lemma SchedulerClock(h: K, clk: seq<nat>)
    requires |clk| == 8
    ensures var k' := Scheduler(h, clk);
      k'.status == Running ==>
        && k'.tm.used == h.tm.used && k'.tm.ticks == h.tm.ticks && k'.tm.origin == h.tm.origin
        && (if k'.q.cur.Some? then
              && k'.tm.tod == clk[7] && k'.tm.start == clk[6] && k'.tm.pseudo == Add32(h.tm.pseudo, Elapsed(clk[5], h.tm.start))
              && k'.tm.cpuSlice[k'.q.cur.value] == if h.q.cur == None then 0 else h.tm.cpuSlice[k'.q.cur.value]
            else k'.tm.start == h.tm.start && k'.tm.pseudo == h.tm.pseudo && k'.tm.timer == h.tm.timer)
  {}

  lemma EnterOnlyCharges(k: K, clk: seq<nat>)
    requires |clk| == 8
    ensures var k', tm := Enter(k, clk), Enter(k, clk).tm;
      && k'.q == k.q && k'.status == k.status
      && tm.pseudo == k.tm.pseudo && tm.start == k.tm.start && tm.ticks == k.tm.ticks && tm.origin == k.tm.origin && tm.timer == k.tm.timer
  {}

  /** The whole timer interrupt, up to the scheduler. */
  lemma TimerIrqClock(k: K, clk: seq<nat>)
    requires |clk| == 8 && Aged(k.tree) && Enabled(k, TimerIrq)
    ensures var h, p := Handle(k, TimerIrq, clk), Add32(k.tm.pseudo, Elapsed(clk[2], k.tm.start));
      h.status == Running ==>
        && (if p >= PSEUDO_CLOCK then h.tm.pseudo == 0 && h.tm.start == clk[4] && h.tm.ticks == k.tm.ticks + 1
            else h.tm.pseudo == p && h.tm.start == clk[3] && h.tm.ticks == k.tm.ticks)
        && (if k.q.cur.Some? && Enter(k, clk).tm.cpuSlice[k.q.cur.value] >= TIME_SLICE
            then h.q.cur == None && h.q.ready != [] && h.q.ready[|h.q.ready| - 1] == k.q.cur.value
            else h.q.cur == k.q.cur && h.tm.timer == PSEUDO_CLOCK - h.tm.pseudo)
  {
    hide Handle, Enter, TimerInterrupt, Elapsed;
    EnabledRuns(k, TimerIrq);
    EnterOnlyCharges(k, clk);
    TimerClock(Enter(k, clk), clk);
    TimerHandled(k, clk);
  }

  /** A handler's part of the clock. */
  lemma HandleClock(k: K, e: Event, clk: seq<nat>)
    requires |clk| == 8 && Aged(k.tree) && Enabled(k, e) && !e.SsiServes?
    ensures var h, n := Handle(k, e, clk), Enter(k, clk).tm;
      h.status == Running ==>
        && h.tm.used == n.used && h.tm.cpuSlice == n.cpuSlice && h.tm.tod == n.tod && h.tm.origin == n.origin
        && (!e.TimerIrq? ==> h.tm == n)
  {
    hide Handle, TimerInterrupt, Enabled;
    Frames.HandleKeeps(k, e, clk);
    if e.TimerIrq? {
      EnabledRuns(k, e);
      TimerClock(Enter(k, clk), clk);
      TimerHandled(k, clk);
    }
  }

  lemma EnabledRuns(k: K, e: Event)
    requires Enabled(k, e)
    ensures k.status == Running
  {}

  // ----- the time on the CPU -----

  /** The reading at which the thread that runs in state i was loaded. */
  ghost function LoadedAt(r: Run, i: nat): (n: nat)
    requires IsRun(r) && i <= |r.events|
  {
    if i == 0 then r.bootClk[7]
    else
      RunStep(r, i - 1);
      if r.events[i - 1].SsiServes? then LoadedAt(r, i - 1) else r.clocks[i - 1][7]
  }

  /** The sum of the times that t has been on the CPU since it was created: each from the reading of its loading to the
      reading with which the next handler begins. */
  ghost function OnCpu(r: Run, i: nat, t: Tid): (n: int)
    requires IsRun(r) && i <= |r.events|
  {
    if i == 0 then 0
    else
      RunStep(r, i - 1);
      (if r.states[i].tree.birth[t] != r.states[i - 1].tree.birth[t] then 0 else OnCpu(r, i - 1, t))
      + if r.events[i - 1].SsiServes? || r.states[i - 1].q.cur != Some(t) then 0 else r.clocks[i - 1][1] - LoadedAt(r, i - 1)
  }

  /** Each time from a loading to the next handler is shorter than 2^32. */
  ghost predicate ShortTurns(r: Run, i: nat)
    requires IsRun(r) && i <= |r.events|
  {
    forall j {:trigger r.events[j]} :: 0 <= j < i && !r.events[j].SsiServes? ==> TurnIsShort(r, j)
  }

  ghost predicate TurnIsShort(r: Run, j: nat)
    requires IsRun(r) && j < |r.events|
  {
    RunStep(r, j);
    r.clocks[j][1] - LoadedAt(r, j) < U32
  }

  lemma LoadedStep(r: Run, i: nat)
    requires IsRun(r) && i < |r.events|
    ensures |r.clocks[i]| == 8
    ensures LoadedAt(r, i + 1) == if r.events[i].SsiServes? then LoadedAt(r, i) else r.clocks[i][7]
  {
    hide Step, Enabled;
    RunStep(r, i);
  }

  lemma {:induction false} TodIsLoadedAt(r: Run, i: nat)
    requires IsRun(r) && i <= |r.events| && r.states[i].status == Running && r.states[i].q.cur.Some?
    ensures r.states[i].tm.tod == LoadedAt(r, i)
  {
    hide Step, Safe, Enabled, Handle, Scheduler, SsiServe, Next, LoadedAt;
    if i == 0 {
      LoadedFirst(r);
    } else {
      RanBefore(r, i - 1);
      LoadedStep(r, i - 1);
      var k, e, clk := r.states[i - 1], r.events[i - 1], r.clocks[i - 1];
      if e.SsiServes? {
        StepIsServe(k, clk);
        ServeClock(k);
        SsiServeSafe(k);
        ServingCur(k);
        TodIsLoadedAt(r, i - 1);
      } else {
        StepIsHandle(k, e, clk);
        SchedulerClock(Handle(k, e, clk), clk);
      }
    }
  }

  lemma LoadedFirst(r: Run)
    requires IsRun(r)
    ensures r.states[0].tm.tod == LoadedAt(r, 0) && r.states[0].q.cur == Some(SSI)
    ensures r.states[0].tm.used == seq(NT, _ => 0) && r.states[0].tm.cpuSlice[SSI] == 0
  {}

  lemma ServingCur(k: K)
    requires Enabled(k, SsiServes)
    ensures k.q.cur == Some(SSI)
  {}

  lemma OnCpuStep(r: Run, i: nat, t: Tid)
    requires IsRun(r) && i < |r.events|
    ensures |r.clocks[i]| == 8
    ensures OnCpu(r, i + 1, t) ==
      (if r.states[i + 1].tree.birth[t] != r.states[i].tree.birth[t] then 0 else OnCpu(r, i, t))
      + if r.events[i].SsiServes? || r.states[i].q.cur != Some(t) then 0 else r.clocks[i][1] - LoadedAt(r, i)
  {
    hide Step, Enabled, LoadedAt;
    RunStep(r, i);
  }

  /** In a step of a run a thread is charged for its time on the CPU, up to multiples of 2^32, and nobody else is charged;
      a new thread begins with nothing. */
  lemma StepCharges(r: Run, i: nat, t: Tid)
    requires IsRun(r) && i < |r.events| && r.states[i + 1].status == Running
    ensures |r.clocks[i]| == 8
    ensures var k, k', clk := r.states[i], r.states[i + 1], r.clocks[i];
      if r.events[i].SsiServes? then
        k'.tm.used[t] == if k'.tree.birth[t] == k.tree.birth[t] then k.tm.used[t] else 0
      else
        && k'.tree.birth[t] == k.tree.birth[t]
        && k'.tm.used[t] == k.tm.used[t] + (if k.q.cur == Some(t) then (clk[1] - LoadedAt(r, i)) % U32 else 0)
        && (k.q.cur.Some? ==> LoadedAt(r, i) <= clk[0] <= clk[1])
  {
    hide Step, Safe, Enabled, Handle, Scheduler, SsiServe, LoadedAt, Next;
    RanBefore(r, i);
    LoadedStep(r, i);
    var k, e, clk := r.states[i], r.events[i], r.clocks[i];
    if e.SsiServes? {
      StepIsServe(k, clk);
      ServeClock(k);
      Younger(k, t);
    } else {
      StepIsHandle(k, e, clk);
      SchedulerClock(Handle(k, e, clk), clk);
      Frames.SchedulerKeeps(Handle(k, e, clk), clk);
      HandleClock(k, e, clk);
      Frames.HandleKeeps(k, e, clk);
      if k.q.cur.Some? {
        TodIsLoadedAt(r, i);
        ReadingsFollow(r, i);
        ElapsedModulo(clk[1], k.tm.tod);
        EnterCharges(k, clk);
      }
    }
  }

  lemma EnterCharges(k: K, clk: seq<nat>)
    requires |clk| == 8 && k.q.cur.Some?
    ensures var t, n := k.q.cur.value, Enter(k, clk).tm;
      && n.used == k.tm.used[t := k.tm.used[t] + Elapsed(clk[1], k.tm.tod)]
      && n.cpuSlice == k.tm.cpuSlice[t := Add32(k.tm.cpuSlice[t], Elapsed(clk[0], k.tm.tod))]
  {}

  lemma Younger(k: K, t: Tid)
    requires Safe(k)
    ensures k.tree.birth[t] < k.tree.next
  {}

  lemma ReadingsFollow(r: Run, i: nat)
    requires IsRun(r) && i < |r.events|
    ensures var tm, clk := r.states[i].tm, r.clocks[i];
      && ClockOk(tm, clk) && tm.start <= clk[0] <= clk[1]
      && (r.states[i].q.cur.Some? ==> tm.tod <= clk[0])
  {
    hide Step, Safe, Enabled;
    Reachable(r, i);
    RunStep(r, i);
    RunningBefore(r, i);
  }

  /** A thread's account is its time on the CPU since it was created: modulo 2^32 in every run, and exactly if no turn
      lasts 2^32 time units. */
  lemma {:induction false} ChargedForTimeOnCpu(r: Run, i: nat, t: Tid)
    requires IsRun(r) && i <= |r.events| && r.states[i].status == Running
    ensures r.states[i].tm.cpuTime[t] == OnCpu(r, i, t) % U32
    ensures ShortTurns(r, i) ==> r.states[i].tm.used[t] == OnCpu(r, i, t)
  {
    hide Step, Safe, Enabled, Next, LoadedAt, OnCpu, TurnIsShort;
    UsedIsTimeOnCpu(r, i, t);
    WrappedAccount(r, i, t);
  }

  lemma WrappedAccount(r: Run, i: nat, t: Tid)
    requires IsRun(r) && i <= |r.events| && r.states[i].status == Running
    ensures r.states[i].tm.cpuTime[t] == r.states[i].tm.used[t] % U32
  {
    hide Step, Safe, Enabled, Next;
    Reachable(r, i);
  }

  lemma {:induction false} UsedIsTimeOnCpu(r: Run, i: nat, t: Tid)
    requires IsRun(r) && i <= |r.events| && r.states[i].status == Running
    ensures r.states[i].tm.used[t] % U32 == OnCpu(r, i, t) % U32
    ensures ShortTurns(r, i) ==> r.states[i].tm.used[t] == OnCpu(r, i, t)
  {
    hide Next, LoadedAt, OnCpu, TurnIsShort;
    if i == 0 {
      NothingYet(r, t);
    } else {
      RunningBefore(r, i - 1);
      UsedIsTimeOnCpu(r, i - 1, t);
      OnCpuStep(r, i - 1, t);
      StepCharges(r, i - 1, t);
      if !r.events[i - 1].SsiServes? && r.states[i - 1].q.cur == Some(t) {
        AddedModulo(r.states[i - 1].tm.used[t], OnCpu(r, i - 1, t), r.clocks[i - 1][1] - LoadedAt(r, i - 1));
        if ShortTurns(r, i) { ShortTurn(r, i - 1); }
      }
    }
  }

  lemma NothingYet(r: Run, t: Tid)
    requires IsRun(r)
    ensures r.states[0].tm.used[t] == 0 && OnCpu(r, 0, t) == 0
  {}

  lemma ShortTurn(r: Run, j: nat)
    requires IsRun(r) && j < |r.events| && !r.events[j].SsiServes? && ShortTurns(r, j + 1)
    ensures |r.clocks[j]| == 8 && r.clocks[j][1] - LoadedAt(r, j) < U32
  {
    hide Step, Enabled, LoadedAt;
    RunStep(r, j);
    assert TurnIsShort(r, j);
  }

  lemma AddedModulo(n: nat, x: int, d: nat)
    requires n % U32 == x % U32
    ensures (n + d % U32) % U32 == (x + d) % U32
  {
    var a, q, p := n / U32, x / U32, d / U32;
    assert x + d == (q + p - a) * U32 + (n + d % U32);
  }

  /** GETCPUTIME answers, modulo 2^32, the time that the thread has been on the CPU since it was created. */
  lemma CpuTimeAnswerExact(r: Run, i: nat, t: Tid)
    requires IsRun(r) && AsksCpuTime(r, i, t)
    ensures r.states[i + 1].ssi.outbox == [Reply(t, Word(OnCpu(r, i, t) % U32))]
  {
    hide Next, OnCpu;
    CpuTimeAnswered(r, i, t);
    ChargedForTimeOnCpu(r, i, t);
  }

  // ----- time slices -----

  /** The thread that leaves a handler on the CPU is the one that was there. */
  lemma HandleCur(k: K, e: Event, clk: seq<nat>)
    requires |clk| == 8 && Aged(k.tree) && Enabled(k, e) && !e.SsiServes?
    ensures var h := Handle(k, e, clk); h.q.cur == None || h.q.cur == k.q.cur
    ensures IsIrq(e) && !e.TimerIrq? ==> Handle(k, e, clk).q.cur == k.q.cur
  {
    hide MsgSend, Recv, Trap, SsiCall, Notify, TimerInterrupt;
    var k' := Enter(k, clk);
    match e
    case SendCall(to, body) => MsgSendCur(k', to, body);
    case RecvCall(from) => RecvCur(k', from);
    case TrapRaised(kind, cause) => TrapCur(k', kind, cause);
    case SsiCalls => SsiCallCur(k');
    case TimerIrq => TimerCur(k', clk);
    case DeviceIrq(line, dev, status) => NotifyKeepsCur(k', Raw(Devices.RegisterAddr(line, dev)), INTERRUPT_MSG, status);
    case TerminalIrq(dev, trans, recv) =>
      var base := Devices.RegisterAddr(Devices.INT_TERMINAL, dev);
      NotifyKeepsCur(k', Raw(base + 0x8), INTERRUPT_MSG, trans);
      NotifyKeepsCur(k', Raw(base), INTERRUPT_MSG, recv);
    case NoLineIrq =>
  }

  lemma TerminateCur(k: K, t: Tid)
    requires Aged(k.tree)
    ensures Terminate(k, t).q.cur == None || Terminate(k, t).q.cur == k.q.cur
  {
    hide PostOrder;
  }

  lemma MsgSendCur(k: K, to: Addr, body: Payload)
    requires k.q.cur.Some? && Aged(k.tree)
    ensures MsgSend(k, to, body).q.cur == None || MsgSend(k, to, body).q.cur == k.q.cur
  {
    hide Deliver, Terminate;
    var a := Announce(k, to);
    Frames.DeliverKeeps(a, k.q.cur.value, Target(to), body);
    if Target(to).Tcb? { TerminateCur(a, Target(to).t); }
  }

  lemma RecvCur(k: K, from: Addr)
    requires k.q.cur.Some?
    ensures Recv(k, from).q.cur == None || Recv(k, from).q.cur == k.q.cur
  {}

  lemma TrapCur(k: K, kind: TrapKind, cause: nat)
    requires k.q.cur.Some? && Aged(k.tree)
    ensures Trap(k, kind, cause).q.cur == None || Trap(k, kind, cause).q.cur == k.q.cur
  {
    hide Send, Terminate;
    var t := k.q.cur.value;
    TerminateCur(k, t);
    Frames.SendKeeps(k, Tcb(t), ManagerOf(k, kind, t), Word(cause));
  }

  lemma SsiCallCur(k: K)
    requires k.q.cur.Some? && Aged(k.tree) && (k.ssi.pc == Sending ==> k.ssi.outbox != [])
    ensures SsiCall(k).q.cur == None || SsiCall(k).q.cur == k.q.cur
  {
    hide MsgSend, Recv;
    if k.ssi.pc == Sending {
      MsgSendCur(k, Tcb(k.ssi.outbox[0].to), k.ssi.outbox[0].body);
    } else {
      RecvCur(k, Null);
    }
  }

  lemma TimerCur(k: K, clk: seq<nat>)
    requires |clk| == 8
    ensures TimerInterrupt(k, clk).q.cur == None || TimerInterrupt(k, clk).q.cur == k.q.cur
  {
    hide Notify;
    NotifyKeepsCur(k.(tm := Count(k.tm, clk)), Timer, PSEUDOCLOCK_MSG, 0);
  }

  /** How long the thread that runs in state i has been on the CPU since it was last taken from ready_queue. */
  ghost function InSlice(r: Run, i: nat): (n: int)
    requires IsRun(r) && i <= |r.events|
  {
    if i == 0 then 0
    else
      RunStep(r, i - 1);
      if r.states[i].tm.dispatches != r.states[i - 1].tm.dispatches then 0
      else if r.events[i - 1].SsiServes? then InSlice(r, i - 1)
      else InSlice(r, i - 1) + r.clocks[i - 1][0] - LoadedAt(r, i - 1)
  }

  lemma InSliceStep(r: Run, i: nat)
    requires IsRun(r) && i < |r.events|
    ensures |r.clocks[i]| == 8
    ensures InSlice(r, i + 1) ==
      if r.states[i + 1].tm.dispatches != r.states[i].tm.dispatches then 0
      else if r.events[i].SsiServes? then InSlice(r, i)
      else InSlice(r, i) + r.clocks[i][0] - LoadedAt(r, i)
  {
    hide Step, Enabled, LoadedAt;
    RunStep(r, i);
  }

  /** `cpu_slice` of the running thread is its time on the CPU since it was dispatched. */
  lemma {:induction false} SliceIsTimeOnCpu(r: Run, i: nat)
    requires IsRun(r) && i <= |r.events| && r.states[i].status == Running && r.states[i].q.cur.Some?
    ensures r.states[i].tm.cpuSlice[r.states[i].q.cur.value] == InSlice(r, i) % U32
  {
    hide Next, Step, Safe, Enabled, Handle, Scheduler, SsiServe, LoadedAt, InSlice;
    if i == 0 {
      FirstSlice(r);
    } else {
      RanBefore(r, i - 1);
      InSliceStep(r, i - 1);
      if r.states[i - 1].q.cur.Some? { SliceIsTimeOnCpu(r, i - 1); }
      if r.events[i - 1].SsiServes? { ServedSlice(r, i - 1); } else { HandledSlice(r, i - 1); }
    }
  }

  lemma FirstSlice(r: Run)
    requires IsRun(r)
    ensures r.states[0].q.cur == Some(SSI) && r.states[0].tm.cpuSlice[SSI] == 0 && InSlice(r, 0) == 0
  {}

  lemma ServedSlice(r: Run, i: nat)
    requires IsRun(r) && i < |r.events| && r.events[i].SsiServes?
    ensures r.states[i].q.cur == Some(SSI) && r.states[i + 1].q.cur == Some(SSI)
    ensures r.states[i + 1].tm.cpuSlice[SSI] == r.states[i].tm.cpuSlice[SSI]
    ensures r.states[i + 1].tm.dispatches == r.states[i].tm.dispatches
  {
    hide Step, Safe, Enabled, SsiServe;
    RanBefore(r, i);
    var k := r.states[i];
    StepIsServe(k, r.clocks[i]);
    ServeClock(k);
    SsiServeSafe(k);
    ServingCur(k);
    SsiNotFree(k);
  }

  lemma SsiNotFree(k: K)
    requires Safe(k)
    ensures SSI !in k.q.free
  {
    PartitionMeans(k.q);
  }

  /** After a handler the running thread is newly dispatched, or it goes on and its slice has grown. */
  lemma HandledSlice(r: Run, i: nat)
    requires IsRun(r) && i < |r.events| && !r.events[i].SsiServes? && r.states[i + 1].status == Running
    requires r.states[i].q.cur.Some? ==> r.states[i].tm.cpuSlice[r.states[i].q.cur.value] == InSlice(r, i) % U32
    ensures r.states[i + 1].q.cur.Some? ==>
      r.states[i + 1].tm.cpuSlice[r.states[i + 1].q.cur.value] == InSlice(r, i + 1) % U32
  {
    hide Step, Safe, Enabled, Handle, Scheduler, LoadedAt, InSlice, Next;
    RanBefore(r, i);
    InSliceStep(r, i);
    var k, e, clk := r.states[i], r.events[i], r.clocks[i];
    var h := Handle(k, e, clk);
    StepIsHandle(k, e, clk);
    SchedulerClock(h, clk);
    Frames.SchedulerKeeps(h, clk);
    SchedulerDispatch(h, clk);
    HandleClock(k, e, clk);
    Frames.HandleKeeps(k, e, clk);
    HandleCur(k, e, clk);
    if h.q.cur.Some? {
      SliceAtEntry(r, i);
    }
  }

  /** The slice of the running thread as the handler finds it. */
  lemma SliceAtEntry(r: Run, i: nat)
    requires IsRun(r) && i < |r.events| && !r.events[i].SsiServes? && r.states[i].q.cur.Some?
    requires r.states[i].tm.cpuSlice[r.states[i].q.cur.value] == InSlice(r, i) % U32
    ensures |r.clocks[i]| == 8 && LoadedAt(r, i) <= r.clocks[i][0]
    ensures Enter(r.states[i], r.clocks[i]).tm.cpuSlice[r.states[i].q.cur.value]
      == (InSlice(r, i) + r.clocks[i][0] - LoadedAt(r, i)) % U32
  {
    hide Step, Safe, Enabled, LoadedAt, InSlice, Next, Enter, Elapsed, Add32;
    RanBefore(r, i);
    var k, clk := r.states[i], r.clocks[i];
    TodIsLoadedAt(r, i);
    ReadingsFollow(r, i);
    ElapsedModulo(clk[0], k.tm.tod);
    EnterCharges(k, clk);
    AddModulo(k.tm.cpuSlice[k.q.cur.value], InSlice(r, i), clk[0] - k.tm.tod);
  }

  lemma SchedulerDispatch(h: K, clk: seq<nat>)
    requires |clk| == 8
    ensures var k' := Scheduler(h, clk);
      && (h.q.cur.Some? ==> k'.q.cur == h.q.cur && k'.tm.dispatches == h.tm.dispatches)
      && (h.q.cur == None && k'.q.cur.Some? ==> k'.tm.dispatches == h.tm.dispatches + 1)
  {}

  /** Round robin: a timer interrupt moves the running thread to the end of ready_queue if and only if it has had a whole
      slice since it was dispatched. No other interrupt takes the CPU from anyone. */
  lemma PreemptedIff(r: Run, i: nat)
    requires IsRun(r) && i < |r.events| && IsIrq(r.events[i]) && Handled(r, i).status == Running && r.states[i].q.cur.Some?
    ensures |r.clocks[i]| == 8
    ensures var q, t := Handled(r, i).q, r.states[i].q.cur.value;
      if r.events[i].TimerIrq? && (InSlice(r, i) + r.clocks[i][0] - LoadedAt(r, i)) % U32 >= TIME_SLICE
      then q.cur == None && q.ready != [] && q.ready[|q.ready| - 1] == t
      else q.cur == Some(t)
  {
    hide Step, Next, Safe, Enabled, Handle, Enter, LoadedAt, InSlice, TimerInterrupt;
    RanBefore(r, i);
    var k, e, clk := r.states[i], r.events[i], r.clocks[i];
    HandleCur(k, e, clk);
    if e.TimerIrq? {
      SliceIsTimeOnCpu(r, i);
      SliceAtEntry(r, i);
      TimerIrqClock(k, clk);
    }
  }

  // ----- the interval timer -----

  /** With somebody on the CPU the timer runs to the end of the slice or of the pseudo-clock period, whichever is first;
      a timer interrupt with nobody to run sets it for the rest of the period. */
  lemma TimerIsSet(r: Run, i: nat)
    requires IsRun(r) && i < |r.events| && !r.events[i].SsiServes? && r.states[i + 1].status == Running
    ensures var tm, q := r.states[i + 1].tm, r.states[i + 1].q;
      tm.timer ==
        if q.cur.Some? then
          if tm.pseudo >= PSEUDO_CLOCK then 1 else Min((TIME_SLICE - InSlice(r, i + 1)) % U32, PSEUDO_CLOCK - tm.pseudo)
        else if r.events[i].TimerIrq? then PSEUDO_CLOCK - tm.pseudo
        else r.states[i].tm.timer
  {
    hide Step, Safe, Enabled, Handle, Scheduler, LoadedAt, InSlice, Next, TimerInterrupt;
    RanBefore(r, i);
    var k, e, clk := r.states[i], r.events[i], r.clocks[i];
    var h := Handle(k, e, clk);
    StepIsHandle(k, e, clk);
    SchedulerClock(h, clk);
    Frames.SchedulerKeeps(h, clk);
    HandleClock(k, e, clk);
    EnterOnlyCharges(k, clk);
    if r.states[i + 1].q.cur.Some? {
      SliceIsTimeOnCpu(r, i + 1);
      SchedulerSetsTimer(h, clk);
      LessModulo(r.states[i + 1].tm.cpuSlice[r.states[i + 1].q.cur.value], InSlice(r, i + 1));
    } else if e.TimerIrq? {
      SchedulerIdles(h, clk);
      TimerIrqClock(k, clk);
    }
  }

  lemma SchedulerIdles(h: K, clk: seq<nat>)
    requires |clk| == 8
    ensures Scheduler(h, clk).status == Running && Scheduler(h, clk).q.cur == None ==> h.q.ready == []
  {}

  lemma SchedulerSetsTimer(h: K, clk: seq<nat>)
    requires |clk| == 8
    ensures var k' := Scheduler(h, clk);
      k'.status == Running && k'.q.cur.Some? ==>
        k'.tm.timer == if k'.tm.pseudo >= PSEUDO_CLOCK then 1
                       else Min(Sub32(TIME_SLICE, k'.tm.cpuSlice[k'.q.cur.value]), Sub32(PSEUDO_CLOCK, k'.tm.pseudo))
  {}

  lemma LessModulo(n: nat, x: int)
    requires n == x % U32
    ensures Sub32(TIME_SLICE, n) == (TIME_SLICE - x) % U32
  {
    assert TIME_SLICE - x == -(x / U32) * U32 + (TIME_SLICE - n);
  }

  // ----- the pseudo clock -----

  /** Counting forward in step i stays below 2^32. */
  ghost predicate CountFits(r: Run, i: nat)
    requires IsRun(r) && i < |r.events|
  {
    RunStep(r, i);
    r.states[i].tm.pseudo + r.clocks[i][5] - r.states[i].tm.start < U32
  }

  /** What the pseudo clock has counted when a timer interrupt looks at it: all the time since its last reading. */
  ghost function Counted(r: Run, i: nat): (n: int)
    requires IsRun(r) && i < |r.events|
  {
    RunStep(r, i);
    r.states[i].tm.pseudo + r.clocks[i][2] - r.states[i].tm.start
  }

  /** What a timer interrupt does not count: what was over the period at a tick, and the moments between its readings. */
  ghost function TimerSlip(r: Run, i: nat): (n: int)
    requires IsRun(r) && i < |r.events|
  {
    RunStep(r, i);
    if !r.events[i].TimerIrq? then 0
    else if Counted(r, i) >= PSEUDO_CLOCK then Counted(r, i) - PSEUDO_CLOCK + r.clocks[i][4] - r.clocks[i][2]
    else r.clocks[i][3] - r.clocks[i][2]
  }

  /** What step i does not count: the scheduler leaves out the moment between its two readings. */
  ghost function Slip(r: Run, i: nat): (n: int)
    requires IsRun(r) && i < |r.events|
  {
    RunStep(r, i);
    var clk := r.clocks[i];
    if r.events[i].SsiServes? then 0
    else
      TimerSlip(r, i)
      + if r.states[i + 1].q.cur.Some? then clk[6] - clk[5] else 0
  }

  /** A timer interrupt sends a pseudo-clock message if and only if a whole period has been counted, and nothing else
      does; and all time is counted except for the slip. */
  lemma PseudoStep(r: Run, i: nat)
    requires IsRun(r) && i < |r.events| && r.states[i + 1].status == Running && CountFits(r, i)
    ensures r.states[i + 1].tm.ticks == r.states[i].tm.ticks
      + if r.events[i].TimerIrq? && Counted(r, i) >= PSEUDO_CLOCK then 1 else 0
    ensures Lead(r.states[i + 1].tm) == Lead(r.states[i].tm) - Slip(r, i)
  {
    hide Step, Safe, Enabled, Handle, Scheduler, SsiServe, Next, CountFits, Counted, Lead;
    RanBefore(r, i);
    Reading(r, i);
    SlipIs(r, i);
    var k, e, clk := r.states[i], r.events[i], r.clocks[i];
    if e.SsiServes? {
      StepIsServe(k, clk);
      ServeClock(k);
      SameLead(k.tm);
    } else {
      StepIsHandle(k, e, clk);
      Frames.SchedulerKeeps(Handle(k, e, clk), clk);
      PseudoHandled(r, i);
      PseudoLoaded(Handle(k, e, clk), clk);
    }
  }

  lemma SameLead(tm: Time)
    ensures forall n: Tid :: Lead(NewClock(tm, n)) == Lead(tm)
  {}

  lemma SlipIs(r: Run, i: nat)
    requires IsRun(r) && i < |r.events|
    ensures |r.clocks[i]| == 8
    ensures Slip(r, i) ==
      if r.events[i].SsiServes? then 0 else TimerSlip(r, i) + if r.states[i + 1].q.cur.Some? then r.clocks[i][6] - r.clocks[i][5] else 0
  {
    hide Step, Enabled, Counted;
    RunStep(r, i);
  }

  lemma PseudoHandled(r: Run, i: nat)
    requires IsRun(r) && i < |r.events| && !r.events[i].SsiServes? && CountFits(r, i) && Handled(r, i).status == Running
    ensures |r.clocks[i]| == 8
    ensures var tm, h, clk := r.states[i].tm, Handled(r, i).tm, r.clocks[i];
      && h.ticks == tm.ticks + (if r.events[i].TimerIrq? && Counted(r, i) >= PSEUDO_CLOCK then 1 else 0)
      && Lead(h) == Lead(tm) - TimerSlip(r, i)
      && h.start <= clk[5] <= clk[6] && h.pseudo + clk[5] - h.start < U32
  {
    hide Step, Safe, Enabled, Handle, TimerInterrupt, CountFits, Counted, Elapsed, Enter;
    RanBefore(r, i);
    Reading(r, i);
    var k, e, clk := r.states[i], r.events[i], r.clocks[i];
    HandleClock(k, e, clk);
    EnterOnlyCharges(k, clk);
    ReadingsFollow(r, i);
    if e.TimerIrq? {
      TimerIrqClock(k, clk);
      ElapsedModulo(clk[2], k.tm.start);
    }
  }

  /** Loading a thread counts the time up to one reading and starts again from the next. */
  lemma PseudoLoaded(h: K, clk: seq<nat>)
    requires |clk| == 8 && h.tm.start <= clk[5] <= clk[6] && h.tm.pseudo + clk[5] - h.tm.start < U32
    ensures var k' := Scheduler(h, clk);
      k'.status == Running ==>
        k'.tm.ticks == h.tm.ticks && Lead(k'.tm) == Lead(h.tm) - if k'.q.cur.Some? then clk[6] - clk[5] else 0
  {
    hide Scheduler;
    SchedulerClock(h, clk);
    ElapsedModulo(clk[5], h.tm.start);
  }

  lemma Reading(r: Run, i: nat)
    requires IsRun(r) && i < |r.events|
    ensures |r.clocks[i]| == 8
    ensures CountFits(r, i) <==> r.states[i].tm.pseudo + r.clocks[i][5] - r.states[i].tm.start < U32
    ensures Counted(r, i) == r.states[i].tm.pseudo + r.clocks[i][2] - r.states[i].tm.start
  {
    hide Step, Enabled;
    RunStep(r, i);
  }

  ghost function Slips(r: Run, i: nat, j: nat): (n: int)
    requires IsRun(r) && i <= j <= |r.events|
    decreases j
  {
    if i == j then 0 else Slips(r, i, j - 1) + Slip(r, j - 1)
  }

  /** Between two states of a run all time is accounted for: it is in pseudo-clock messages, in `pseudo_tick`, or it has
      slipped. */
  lemma {:induction false} PseudoClockExact(r: Run, i: nat, j: nat)
    requires IsRun(r) && i <= j <= |r.events| && r.states[j].status == Running
    requires forall m :: i <= m < j ==> CountFits(r, m)
    ensures var a, b := r.states[i].tm, r.states[j].tm;
      (b.ticks - a.ticks) * PSEUDO_CLOCK + b.pseudo + Slips(r, i, j) == a.pseudo + b.start - a.start
    decreases j
  {
    hide Next, CountFits, Slip;
    if i < j {
      RunningBefore(r, j - 1);
      PseudoClockExact(r, i, j - 1);
      PseudoStep(r, j - 1);
    }
  }
}
