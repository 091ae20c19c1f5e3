/** Time accounting (phase2/src/scheduler.c, and the first lines of every handler).

    A handler reads the clock at most eight times, `clk[0]` to `clk[7]`, and the readings never
    go back; the registers hold readings modulo 2^32 and are subtracted modulo 2^32. */
module Timing {
  import opened Types

  ghost predicate ClockOk(tm: Time, clk: seq<nat>) {
    && |clk| == 8
    && tm.now <= clk[0]
    && (forall i, j :: 0 <= i <= j < 8 ==> clk[i] <= clk[j])
  }

  /** `GET_TODLOW - since` in unsigned 32-bit arithmetic. */
  function Elapsed(now: nat, since: nat): (r: nat)
    ensures since <= now ==> r <= now - since
    ensures r < U32
  {
    var r := Sub32(now % U32, since % U32);
    WrapBelow(now, since);
    r
  }

  /** Wrapping around can only lose time. */
  lemma WrapBelow(now: nat, since: nat)
    ensures since <= now ==> Sub32(now % U32, since % U32) <= now - since
  {
    var a, b := now / U32, since / U32;
    assert now == a * U32 + now % U32 && since == b * U32 + since % U32;
    if since <= now {
      assert a >= b;
      if now % U32 < since % U32 {
        assert a > b;
        assert Sub32(now % U32, since % U32) == now % U32 - since % U32 + U32;
      } else {
        assert Sub32(now % U32, since % U32) == now % U32 - since % U32;
      }
    }
  }

  /** Handler entry: the running thread t is charged for the time since it was loaded. */
  function Charge(tm: Time, t: Tid, clk: seq<nat>): (r: Time)
    requires |clk| == 8
  {
    var spent := Elapsed(clk[1], tm.tod);
    tm.(now := clk[1],
        cpuSlice := tm.cpuSlice[t := Add32(tm.cpuSlice[t], Elapsed(clk[0], tm.tod))],
        cpuTime := tm.cpuTime[t := Add32(tm.cpuTime[t], spent)],
        used := tm.used[t := tm.used[t] + spent], charged := tm.charged + spent)
  }

  /** The interval-timer interrupt counts the pseudo clock forward. */
  function Count(tm: Time, clk: seq<nat>): (r: Time)
    requires |clk| == 8
  {
    tm.(now := clk[3], pseudo := Add32(tm.pseudo, Elapsed(clk[2], tm.start)), start := clk[3])
  }

  predicate TickDue(tm: Time) {
    tm.pseudo >= PSEUDO_CLOCK
  }

  /** After the pseudo-clock message the count restarts. */
  function Restart(tm: Time, clk: seq<nat>): (r: Time)
    requires |clk| == 8
  {
    tm.(now := clk[4], pseudo := 0, start := clk[4], ticks := tm.ticks + 1)
  }

  /** The interval timer is set for the rest of the pseudo-clock period. */
  function SetTimer(tm: Time): (r: Time) {
    tm.(timer := Sub32(PSEUDO_CLOCK, tm.pseudo))
  }

  function Min(a: nat, b: nat): nat {
    if a < b then a else b
  }

  /** The scheduler loads thread t; a newly dispatched thread gets a whole slice. */
  function Load(tm: Time, t: Tid, dispatched: bool, clk: seq<nat>): (r: Time)
    requires |clk| == 8
  {
    var p := Add32(tm.pseudo, Elapsed(clk[5], tm.start));
    var slice := if dispatched then 0 else tm.cpuSlice[t];
    tm.(now := clk[7], pseudo := p, start := clk[6], tod := clk[7],
        cpuSlice := tm.cpuSlice[t := slice], dispatches := tm.dispatches + (if dispatched then 1 else 0),
        timer := if p >= PSEUDO_CLOCK then 1 else Min(Sub32(TIME_SLICE, slice), Sub32(PSEUDO_CLOCK, p)))
  }

  /** The scheduler loads nobody. */
  function Idle(tm: Time, clk: seq<nat>): (r: Time)
    requires |clk| == 8
  {
    tm.(now := clk[7])
  }

  /** `allocTcb` on the time fields of n. */
  function NewClock(tm: Time, n: Tid): (r: Time) {
    tm.(cpuTime := tm.cpuTime[n := 0], cpuSlice := tm.cpuSlice[n := 0], used := tm.used[n := 0])
  }

  // ----- the invariant -----

  ghost function Total(s: seq<nat>): (r: nat) {
    if s == [] then 0 else Total(s[..|s| - 1]) + s[|s| - 1]
  }

  lemma {:induction false} TotalUpdate(s: seq<nat>, i: nat, v: nat)
    requires i < |s|
    ensures Total(s[i := v]) + s[i] == Total(s) + v
  {
    var n := |s| - 1;
    if i == n {
      assert s[i := v][..n] == s[..n];
    } else {
      TotalUpdate(s[..n], i, v);
      assert s[i := v][..n] == s[..n][i := v];
    }
  }

  /** `running`: some thread is on the CPU and not yet charged since `tod`. */
  ghost predicate TimeOk(tm: Time, running: bool) {
    && tm.origin <= tm.start <= tm.now
    && (running ==> tm.origin <= tm.tod <= tm.now)
    && tm.ticks * PSEUDO_CLOCK + tm.pseudo <= tm.start - tm.origin
    && tm.charged <= (if running then tm.tod else tm.now) - tm.origin
    && (forall t: Tid :: tm.cpuTime[t] == tm.used[t] % U32)
    && Total(tm.used) <= tm.charged
  }

  /** How far the ticks sent and the pseudo clock are ahead of the time of its last reading. It never grows. */
  function Lead(tm: Time): (d: int) {
    tm.ticks * PSEUDO_CLOCK + tm.pseudo - tm.start
  }

  /** The pseudo clock has gone on from tm to tm'. */
  predicate GoesOn(tm: Time, tm': Time) {
    Lead(tm') <= Lead(tm) && tm.start <= tm'.start && tm.ticks <= tm'.ticks
  }

  lemma CountGoesOn(tm: Time, clk: seq<nat>)
    requires |clk| == 8 && tm.start <= clk[2] <= clk[3]
    ensures GoesOn(tm, Count(tm, clk))
  {}

  lemma RestartGoesOn(tm: Time, clk: seq<nat>)
    requires |clk| == 8 && tm.start <= clk[4] && TickDue(tm)
    ensures GoesOn(tm, Restart(tm, clk)) && Lead(Restart(tm, clk)) == (tm.ticks + 1) * PSEUDO_CLOCK - clk[4]
  {}

  lemma LoadGoesOn(tm: Time, t: Tid, dispatched: bool, clk: seq<nat>)
    requires |clk| == 8 && tm.start <= clk[5] <= clk[6]
    ensures GoesOn(tm, Load(tm, t, dispatched, clk))
  {}

  lemma ChargeOk(tm: Time, t: Tid, clk: seq<nat>)
    requires ClockOk(tm, clk) && TimeOk(tm, true)
    ensures TimeOk(Charge(tm, t, clk), false)
  {
    hide Total, Elapsed;
    TotalUpdate(tm.used, t, Charge(tm, t, clk).used[t]);
    AddWraps(tm.used[t], Elapsed(clk[1], tm.tod));
  }

  lemma AddWraps(a: nat, b: nat)
    ensures Add32(a % U32, b) == (a + b) % U32
  {}

  lemma CountOk(tm: Time, clk: seq<nat>)
    requires |clk| == 8 && tm.now <= clk[2] <= clk[3] && TimeOk(tm, false)
    ensures TimeOk(Count(tm, clk), false)
  {}

  /** A tick is sent only when a whole period has been counted. */
  lemma RestartOk(tm: Time, clk: seq<nat>)
    requires |clk| == 8 && tm.now <= clk[4] && TimeOk(tm, false) && TickDue(tm)
    ensures TimeOk(Restart(tm, clk), false)
  {}

  lemma LoadOk(tm: Time, t: Tid, dispatched: bool, clk: seq<nat>)
    requires |clk| == 8 && tm.now <= clk[5] <= clk[6] <= clk[7] && TimeOk(tm, false)
    ensures TimeOk(Load(tm, t, dispatched, clk), true)
  {}

  lemma NewClockOk(tm: Time, n: Tid, running: bool)
    requires TimeOk(tm, running)
    ensures TimeOk(NewClock(tm, n), running)
  {
    TotalUpdate(tm.used, n, 0);
  }

  /** The timer is never set past the end of the pseudo-clock period, and a newly dispatched thread gets at
      most one slice. */
  lemma TimerInTime(tm: Time, t: Tid, dispatched: bool, clk: seq<nat>)
    requires |clk| == 8
    ensures var r := Load(tm, t, dispatched, clk);
      && (if TickDue(r) then r.timer == 1 else r.pseudo + r.timer <= PSEUDO_CLOCK)
      && (dispatched ==> r.cpuSlice[t] + r.timer <= TIME_SLICE)
  {}

  /** A thread that goes on after a system call is interrupted by the end of its slice if and only if it is not
      past it already. Past it, the unsigned difference is huge and the thread keeps the CPU to the end of
      the pseudo-clock period. */
  lemma SliceKeptIff(tm: Time, t: Tid, clk: seq<nat>)
    requires |clk| == 8 && !TickDue(Load(tm, t, false, clk))
    ensures var r := Load(tm, t, false, clk);
      && (r.cpuSlice[t] + r.timer <= TIME_SLICE <==> tm.cpuSlice[t] <= TIME_SLICE)
      && (TIME_SLICE < tm.cpuSlice[t] <= U32 - PSEUDO_CLOCK ==> r.timer == PSEUDO_CLOCK - r.pseudo)
  {}
}
