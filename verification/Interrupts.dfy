/** Which interrupt the handler serves (phase2/src/interrupts.c). */
module Interrupts {
  import opened Types
  import opened KernelSpec
  import opened Devices

  const INT_TIMER: nat := 2

  /** What the handler reads: the pending lines of the cause register, the pending devices of lines 3 to 7,
      the first word of the register block of each device, and the third word of each terminal's. */
  datatype BusRec = Bus(ip: seq<bool>, bitmap: seq<bv32>, first: seq<nat>, third: seq<nat>)
  type Bus = b: BusRec |
      && |b.ip| == 8 && |b.bitmap| == 5 && |b.first| == 40 && |b.third| == 8
      && (forall i :: 0 <= i < 40 ==> b.first[i] < U32)
      && (forall i :: 0 <= i < 8 ==> b.third[i] < U32)
    witness Bus(seq(8, _ => false), seq(5, _ => 0), seq(40, _ => 0), seq(8, _ => 0))

  /** The lowest pending line; 8 if only the software lines are pending. */
  function Line(b: Bus, from: nat): (l: nat)
    requires from <= 8
    ensures from <= l <= 8 && (l < 8 ==> b.ip[l])
    ensures forall i :: from <= i < l ==> !b.ip[i]
    decreases 8 - from
  {
    if from == 8 || b.ip[from] then from else Line(b, from + 1)
  }

  /** The handler's chain of tests finds it. */
  lemma LineIs(b: Bus)
    ensures Line(b, INT_TIMER) ==
      if b.ip[2] then 2 else if b.ip[3] then 3 else if b.ip[4] then 4 else if b.ip[5] then 5
      else if b.ip[6] then 6 else if b.ip[7] then 7 else 8
  {
    var l := Line(b, INT_TIMER);
    hide Line;
  }

  function Chosen(b: Bus, line: nat): (dev: nat)
    requires INT_LOWEST <= line <= INT_TERMINAL
    ensures dev < 8
  {
    WhichDevice(b.bitmap[line - INT_LOWEST])
  }

  /** The status word of a device. */
  function StatusOf(b: Bus, line: nat, dev: nat): (w: nat)
    requires INT_LOWEST <= line <= INT_TERMINAL && dev < 8
    ensures w < U32
  {
    b.first[(line - INT_LOWEST) * 8 + dev]
  }

  /** The interrupt that is served. */
  function Served(b: Bus): (e: Event) {
    var l := Line(b, INT_TIMER);
    if l == INT_TIMER then TimerIrq
    else if l < INT_TERMINAL then DeviceIrq(l, Chosen(b, l), StatusOf(b, l, Chosen(b, l)))
    else if l == INT_TERMINAL then TerminalIrq(Chosen(b, l), b.third[Chosen(b, l)], StatusOf(b, l, Chosen(b, l)))
    else NoLineIrq
  }

  /** Nothing of higher priority is passed over: if device d of line l is pending, then the timer, a lower
      line, or the same line with the same or a lower device is served. */
  lemma HighestPriority(b: Bus, l: nat, d: nat)
    requires INT_LOWEST <= l <= INT_TERMINAL && b.ip[l] && d < 8 && Pending(b.bitmap[l - INT_LOWEST], d)
    ensures match Served(b)
      case TimerIrq => b.ip[INT_TIMER]
      case DeviceIrq(line, dev, _) =>
        && !b.ip[INT_TIMER] && b.ip[line]
        && (line < l || (line == l && dev <= d && Pending(b.bitmap[l - INT_LOWEST], dev)))
      case TerminalIrq(dev, _, _) => l == INT_TERMINAL && dev <= d && Pending(b.bitmap[l - INT_LOWEST], dev)
      case _ => false
  {
    WhichDeviceIsFirst(b.bitmap[l - INT_LOWEST], d);
  }
}
