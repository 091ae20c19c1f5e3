/** The SSI's arrays (phase2/src/ssi.c): one status and one waiter per device, and the clock waiters. */
module SsiTables {
  import opened Types
  import Devices

  const NOSTATUS: nat := U32 - 1   // the word -1

  /** The two array entries of a device, and what they mean. */
  predicate StandsFor(status: nat, tcb: Option<Tid>, d: Device) {
    match d
    case Idle => status == NOSTATUS && tcb == None
    case Status(s) => s != NOSTATUS && status == s && tcb == None
    case Waiter(t) => status == NOSTATUS && tcb == Some(t)
  }

  class Tables {
    const devStatus: array<nat>
    const devTcb: array<Option<Tid>>
    const clockTcb: array<Option<Tid>>
    /** What the arrays stand for. */
    ghost var dev: seq<Device>
    ghost var clock: seq<Tid>

    ghost predicate Shaped()
      reads this
    {
      && devStatus.Length == DEVICES && devTcb.Length == DEVICES && clockTcb.Length == NT
      && devTcb != clockTcb
      && |dev| == DEVICES && |clock| <= NT - 1
    }

    /** No device holds both a status and a waiter, and the clock waiters fill the front of their array. */
    ghost predicate Valid()
      reads this, devStatus, devTcb, clockTcb
    {
      && Shaped()
      && (forall i :: 0 <= i < DEVICES ==> StandsFor(devStatus[i], devTcb[i], dev[i]))
      && (forall i :: 0 <= i < NT ==> clockTcb[i] == if i < |clock| then Some(clock[i]) else None)
    }

    /** The initialisation loops of SSI_thread. */
    constructor ()
      ensures Valid() && fresh(devStatus) && fresh(devTcb) && fresh(clockTcb)
      ensures dev == Devices.AllIdle() && clock == []
    {
      devStatus := new nat[DEVICES];
      devTcb := new Option<Tid>[DEVICES];
      clockTcb := new Option<Tid>[NT];
      dev := Devices.AllIdle();
      clock := [];
      new;
      for i := 0 to DEVICES
        invariant Shaped() && dev == Devices.AllIdle() && clock == []
        invariant fresh(devStatus) && fresh(devTcb) && fresh(clockTcb)
        invariant forall j :: 0 <= j < i ==> devStatus[j] == NOSTATUS && devTcb[j] == None
      {
        devStatus[i] := NOSTATUS;
        devTcb[i] := None;
      }
      for i := 0 to NT
        invariant Shaped() && dev == Devices.AllIdle() && clock == []
        invariant fresh(devStatus) && fresh(devTcb) && fresh(clockTcb)
        invariant forall j :: 0 <= j < DEVICES ==> devStatus[j] == NOSTATUS && devTcb[j] == None
        invariant forall j :: 0 <= j < i ==> clockTcb[j] == None
      {
        clockTcb[i] := None;
      }
    }

    /** INTERRUPT_MSG: the status goes to the waiting thread, or is kept. */
    method Interrupt(i: nat, status: nat) returns (r: Option<Reply>)
      requires Valid() && i < DEVICES && status < U32
      modifies this`dev, devStatus, devTcb
      ensures Valid() && clock == old(clock)
      ensures (dev[i], r) == Devices.OnInterrupt(old(dev)[i], status) && dev == old(dev)[i := dev[i]]
    {
      assert StandsFor(devStatus[i], devTcb[i], dev[i]);
      if devTcb[i].None? {
        devStatus[i] := status;
        r := None;
      } else {
        r := Some(Reply(devTcb[i].value, Word(status % STATUS_MODULUS)));
        devTcb[i] := None;
      }
      dev := dev[i := Devices.OnInterrupt(dev[i], status).0];
    }

    /** WAITFORIO: a kept status goes to the thread, or the thread is kept. */
    method Wait(i: nat, t: Tid) returns (r: Option<Reply>)
      requires Valid() && i < DEVICES
      modifies this`dev, devStatus, devTcb
      ensures Valid() && clock == old(clock)
      ensures (dev[i], r) == Devices.OnWait(old(dev)[i], t) && dev == old(dev)[i := dev[i]]
    {
      assert StandsFor(devStatus[i], devTcb[i], dev[i]);
      if devStatus[i] == NOSTATUS {
        devTcb[i] := Some(t);
        r := None;
      } else {
        r := Some(Reply(t, Word(devStatus[i])));
        devStatus[i] := NOSTATUS;
      }
      dev := dev[i := Devices.OnWait(dev[i], t).0];
    }

    /** WAITFORCLOCK: the first empty of the entries 0 to MAXTHREADS - 2 is the end of the queue. */
    method Register(t: Tid)
      requires Valid()
      modifies this`clock, clockTcb
      ensures Valid() && clock == if |old(clock)| < NT - 1 then old(clock) + [t] else old(clock)
    {
      var i := 0;
      while i < NT - 1
        invariant 0 <= i <= |clock| && unchanged(this) && unchanged(clockTcb)
      {
        if clockTcb[i].None? {
          clockTcb[i] := Some(t);
          clock := clock + [t];
          break;
        }
        i := i + 1;
      }
    }

    /** PSEUDOCLOCK_MSG: one message for every registered thread, in order of registration; the early
        exit at the first empty entry skips nobody, and the array is left empty. */
    method Tick() returns (out: seq<Reply>)
      requires Valid()
      modifies this`clock, clockTcb
      ensures Valid() && clock == []
      ensures out == Devices.ClockReplies(old(clock))
    {
      out := [];
      var i := 0;
      while i < NT - 1
        invariant 0 <= i <= |clock| && unchanged(this)
        invariant |out| == i && forall j :: 0 <= j < i ==> out[j] == Reply(clock[j], Word(42))
        invariant forall j :: 0 <= j < NT ==> clockTcb[j] == if i <= j < |clock| then Some(clock[j]) else None
      {
        if clockTcb[i].None? { break; }
        out := out + [Reply(clockTcb[i].value, Word(42))];
        clockTcb[i] := None;
        i := i + 1;
      }
      clock := [];
    }
  }
}
