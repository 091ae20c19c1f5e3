/** Runs of the kernel from boot, and what holds in all of them. */
module Runs {
  import opened Types
  import opened Sequences
  import opened ProcessTree
  import opened ThreadQueues
  import opened Mailboxes
  import opened KernelSpec
  import opened Invariants
  import opened Accounts
  import opened Timing
  import Frames

  /** One step: an event that can happen, read by a clock that does not go back. */
  ghost predicate Next(k: K, e: Event, clk: seq<nat>, k': K) {
    && Aged(k.tree)
    && Enabled(k, e)
    && ClockOk(k.tm, clk)
    && k' == Step(k, e, clk)
  }

  /** `boot` and `bootClk` are the clock readings of `main` and of its call of the scheduler. */
  datatype Run = Run(boot: nat, bootClk: seq<nat>, states: seq<K>, events: seq<Event>, clocks: seq<seq<nat>>)

  ghost predicate IsRun(r: Run) {
    && ClockOk(Boot(r.boot).tm, r.bootClk)
    && |r.states| == |r.events| + 1 == |r.clocks| + 1
    && r.states[0] == Scheduler(Boot(r.boot), r.bootClk)
    && (forall i {:trigger r.events[i]} :: 0 <= i < |r.events| ==> Next(r.states[i], r.events[i], r.clocks[i], r.states[i + 1]))
  }

  /** Step i of a run. */
  lemma RunStep(r: Run, i: nat)
    requires IsRun(r) && i < |r.events|
    ensures Next(r.states[i], r.events[i], r.clocks[i], r.states[i + 1])
  {}

  /** The state in which the handler of step i calls the scheduler. */
  ghost function Handled(r: Run, i: nat): (h: K)
    requires IsRun(r) && i < |r.events| && !r.events[i].SsiServes?
  {
    RunStep(r, i);
    Handle(r.states[i], r.events[i], r.clocks[i])
  }

  ghost predicate Inv(k: K) {
    && Safe(k)
    && Covered(k)
    && (k.status == Running ==> TimeOk(k.tm, k.q.cur.Some?))
    && (k.status == Halted ==> k.threadCount == 1)
  }

  // ----- time across a step -----

  lemma SchedulerTime(h: K, clk: seq<nat>)
    requires |clk| == 8 && h.tm.now <= clk[5] <= clk[6] <= clk[7]
    requires h.status == Running && TimeOk(h.tm, false)
    ensures TimeOk(Scheduler(h, clk).tm, Scheduler(h, clk).q.cur.Some?)
    ensures Scheduler(h, clk).status == Halted ==> Scheduler(h, clk).threadCount == 1
  {
    if h.q.cur.Some? {
      LoadOk(h.tm, h.q.cur.value, false, clk);
    } else if h.q.ready != [] {
      LoadOk(h.tm, h.q.ready[0], true, clk);
    }
  }

  lemma TimerTime(k: K, clk: seq<nat>)
    requires |clk| == 8 && k.tm.now <= clk[2] <= clk[3] <= clk[4] <= clk[5] && TimeOk(k.tm, false)
    ensures var h := TimerInterrupt(k, clk); h.status == Running ==> TimeOk(h.tm, false) && h.tm.now <= clk[5]
  {
    CountOk(k.tm, clk);
    if TickDue(Count(k.tm, clk)) {
      RestartOk(Count(k.tm, clk), clk);
    }
  }

  /** Only the interval timer touches the clock between entry and scheduler. */
  lemma HandleTime(k: K, e: Event, clk: seq<nat>)
    requires Aged(k.tree) && Enabled(k, e) && ClockOk(k.tm, clk) && !e.SsiServes?
    requires TimeOk(k.tm, k.q.cur.Some?)
    ensures var h := Handle(k, e, clk); h.status == Running ==> TimeOk(h.tm, false) && h.tm.now <= clk[5]
  {
    if k.q.cur.Some? {
      ChargeOk(k.tm, k.q.cur.value, clk);
    }
    var k' := Enter(k, clk);
    assert k'.tm.now <= clk[2];
    if e.TimerIrq? {
      TimerTime(k', clk);
    } else {
      Frames.HandleKeeps(k, e, clk);
    }
  }

  lemma ServeTime(k: K)
    requires Aged(k.tree) && Enabled(k, SsiServes) && TimeOk(k.tm, true)
    ensures TimeOk(SsiServe(k).tm, true)
  {
    if k.q.free != [] {
      NewClockOk(k.tm, k.q.free[0], true);
    }
  }

  lemma StepInv(k: K, e: Event, clk: seq<nat>, k': K)
    requires Inv(k) && Next(k, e, clk, k')
    ensures Inv(k')
  {
    StepSafe(k, e, clk);
    StepCovered(k, e, clk);
    if e.SsiServes? {
      SsiServeSafe(k);
      ServeTime(k);
      ServeStatus(k);
    } else {
      HandleTime(k, e, clk);
      var h := Handle(k, e, clk);
      if h.status == Running {
        SchedulerTime(h, clk);
      } else {
        HandleStatus(k, e, clk);
      }
    }
  }

  lemma HandleStatus(k: K, e: Event, clk: seq<nat>)
    requires |clk| == 8 && Aged(k.tree) && Enabled(k, e) && !e.SsiServes?
    ensures Handle(k, e, clk).status != Halted
  {}

  lemma ServeStatus(k: K)
    requires Aged(k.tree) && Enabled(k, SsiServes)
    ensures SsiServe(k).status != Halted
  {}

  lemma BootInv(boot: nat, clk: seq<nat>)
    requires ClockOk(Boot(boot).tm, clk)
    ensures Inv(Scheduler(Boot(boot), clk))
  {
    BootSafe(boot);
    BootBalance(boot);
    SchedulerBalance(Boot(boot), clk, 0);
    SchedulerSafe(Boot(boot), clk);
    TotalZero(BootTime(boot).used);
    LoadOk(BootTime(boot), SSI, true, clk);
  }

  lemma {:induction false} TotalZero(s: seq<nat>)
    requires forall i :: 0 <= i < |s| ==> s[i] == 0
    ensures Total(s) == 0
  {
    if s != [] {
      TotalZero(s[..|s| - 1]);
    }
  }

  // ----- runs exist -----

  /** The run that has only booted. */
  function Booted(boot: nat, clk: seq<nat>): (r: Run)
    requires |clk| == 8
  {
    Run(boot, clk, [Scheduler(Boot(boot), clk)], [], [])
  }

  /** A run goes on with every event that can happen. */
  ghost function Extended(r: Run, e: Event, clk: seq<nat>): (s: Run)
    requires IsRun(r) && |clk| == 8 && Enabled(r.states[|r.events|], e) && Aged(r.states[|r.events|].tree)
  {
    Run(r.boot, r.bootClk, r.states + [Step(r.states[|r.events|], e, clk)], r.events + [e], r.clocks + [clk])
  }

  lemma ExtendedIsRun(r: Run, e: Event, clk: seq<nat>)
    requires IsRun(r) && Enabled(r.states[|r.events|], e) && ClockOk(r.states[|r.events|].tm, clk)
    ensures Aged(r.states[|r.events|].tree) && IsRun(Extended(r, e, clk))
  {
    hide Step, Enabled;
    var n := |r.events|;
    Reachable(r, n);
    var s := Extended(r, e, clk);
    forall i {:trigger s.events[i]} | 0 <= i < |s.events| ensures Next(s.states[i], s.events[i], s.clocks[i], s.states[i + 1]) {
      if i < n {
        assert r.events[i] == s.events[i];
        RunStep(r, i);
      }
    }
  }

  /** There are runs of every length, unless the kernel stops: an interrupt can always come. */
  lemma {:induction false} RunsGoOn(n: nat) returns (r: Run)
    ensures IsRun(r) && (|r.events| == n || r.states[|r.events|].status != Running)
  {
    if n == 0 {
      r := Booted(0, seq(8, _ => 0));
    } else {
      r := RunsGoOn(n - 1);
      var k := r.states[|r.events|];
      if k.status == Running {
        var clk := seq(8, _ => k.tm.now);
        ExtendedIsRun(r, NoLineIrq, clk);
        r := Extended(r, NoLineIrq, clk);
      }
    }
  }

  /** Every state of every run satisfies the invariant. */
  lemma {:induction false} Reachable(r: Run, i: nat)
    requires IsRun(r) && i < |r.states|
    ensures Inv(r.states[i])
  {
    hide Inv, Step, Enabled, Scheduler;
    if i == 0 {
      BootInv(r.boot, r.bootClk);
    } else {
      Reachable(r, i - 1);
      RunStep(r, i - 1);
      StepInv(r.states[i - 1], r.events[i - 1], r.clocks[i - 1], r.states[i]);
    }
  }
}
