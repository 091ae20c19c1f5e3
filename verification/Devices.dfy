/** Device registers, interrupt lines, and the SSI's rendezvous between interrupts and WAITFORIO. */
module Devices {
  import opened Types

  const DEV_REGS_START: nat := 0x10000050
  const INT_LOWEST: nat := 3
  const INT_TERMINAL: nat := 7
  const CHAR_DONE: nat := 5   // DEV_TTRS_S_CHARTRSM and DEV_TRCV_S_CHARRECV

  /** The register block the interrupt handler computes for device `dev` of a line. */
  function RegisterAddr(line: nat, dev: nat): (r: nat)
    requires INT_LOWEST <= line <= INT_TERMINAL && dev < 8
  {
    DEV_REGS_START + (line - INT_LOWEST) * 0x80 + dev * 0x10
  }

  /** The SSI's array index for a status-register address; -1 for every other word. */
  function RestIndex(dev: nat): (r: int)
    ensures -1 <= r < DEVICES
  {
    if dev == 0x10000050 then 0
    else if dev == 0x10000060 then 1
    else if dev == 0x10000070 then 2
    else if dev == 0x10000080 then 3
    else if dev == 0x10000090 then 4
    else if dev == 0x100000a0 then 5
    else if dev == 0x100000b0 then 6
    else if dev == 0x100000c0 then 7
    else if dev == 0x100000d0 then 8
    else if dev == 0x100000e0 then 9
    else if dev == 0x100000f0 then 10
    else if dev == 0x10000100 then 11
    else if dev == 0x10000110 then 12
    else if dev == 0x10000120 then 13
    else if dev == 0x10000130 then 14
    else if dev == 0x10000140 then 15
    else if dev == 0x10000150 then 16
    else if dev == 0x10000160 then 17
    else if dev == 0x10000170 then 18
    else if dev == 0x10000180 then 19
    else if dev == 0x10000190 then 20
    else if dev == 0x100001a0 then 21
    else if dev == 0x100001b0 then 22
    else if dev == 0x100001c0 then 23
    else if dev == 0x100001d0 then 24
    else if dev == 0x100001e0 then 25
    else if dev == 0x100001f0 then 26
    else if dev == 0x10000200 then 27
    else if dev == 0x10000210 then 28
    else if dev == 0x10000220 then 29
    else if dev == 0x10000230 then 30
    else if dev == 0x10000240 then 31
    else if dev == 0x10000250 then 32
    else if dev == 0x10000250 + 0x8 then 33
    else if dev == 0x10000260 then 34
    else if dev == 0x10000260 + 0x8 then 35
    else if dev == 0x10000270 then 36
    else if dev == 0x10000270 + 0x8 then 37
    else if dev == 0x10000280 then 38
    else if dev == 0x10000280 + 0x8 then 39
    else if dev == 0x10000290 then 40
    else if dev == 0x10000290 + 0x8 then 41
    else if dev == 0x100002a0 then 42
    else if dev == 0x100002a0 + 0x8 then 43
    else if dev == 0x100002b0 then 44
    else if dev == 0x100002b0 + 0x8 then 45
    else if dev == 0x100002c0 then 46
    else if dev == 0x100002c0 + 0x8 then 47
    else -1
  }

  /** Every register address the interrupt handler can send from has its own index: 8 per line for
      lines 3 to 6, then a receive and a transmit index for each terminal. */
  lemma IndexOfRegister(line: nat, dev: nat)
    requires INT_LOWEST <= line <= INT_TERMINAL && dev < 8
    ensures line < INT_TERMINAL ==> RestIndex(RegisterAddr(line, dev)) == (line - INT_LOWEST) * 8 + dev
    ensures line == INT_TERMINAL ==> RestIndex(RegisterAddr(line, dev)) == 32 + 2 * dev
    ensures line == INT_TERMINAL ==> RestIndex(RegisterAddr(line, dev) + 0x8) == 33 + 2 * dev
  {}

  /** Two words with the same index are the same register: nobody gets another device's status. */
  lemma IndexInjective(a: nat, b: nat)
    requires RestIndex(a) == RestIndex(b) != -1
    ensures a == b
  {
    IndexInverse(a);
    IndexInverse(b);
  }

  lemma IndexInverse(a: nat)
    requires RestIndex(a) != -1
    ensures var i := RestIndex(a);
      a == if i < 32 then DEV_REGS_START + i * 0x10 else DEV_REGS_START + 0x200 + (i - 32) / 2 * 0x10 + (i - 32) % 2 * 0x8
  {}

  /** The pending device of highest priority on a line. */
  function WhichDevice(bitmap: bv32): (r: nat)
    ensures r < 8
  {
    if bitmap == bitmap | 0x1 then 0
    else if bitmap == bitmap | 0x2 then 1
    else if bitmap == bitmap | 0x4 then 2
    else if bitmap == bitmap | 0x8 then 3
    else if bitmap == bitmap | 0x10 then 4
    else if bitmap == bitmap | 0x20 then 5
    else if bitmap == bitmap | 0x40 then 6
    else 7
  }

  predicate Pending(bitmap: bv32, dev: nat)
    requires dev < 8
  {
    (bitmap >> (dev as bv32)) & 1 == 1
  }

  /** If any of the eight devices is pending, the one chosen is, and none of lower number is. */
  lemma WhichDeviceIsFirst(bitmap: bv32, any: nat)
    requires any < 8 && Pending(bitmap, any)
    ensures Pending(bitmap, WhichDevice(bitmap))
    ensures forall d: nat :: d < WhichDevice(bitmap) ==> !Pending(bitmap, d)
  {
    var r := WhichDevice(bitmap);
    forall d: nat | d < r ensures !Pending(bitmap, d) {
      match d {
        case 0 => case 1 => case 2 => case 3 => case 4 => case 5 => case 6 =>
      }
    }
    match any {
      case 0 => case 1 => case 2 => case 3 => case 4 => case 5 => case 6 => case 7 =>
    }
  }

  // ----- rendezvous -----

  /** An interrupt message arrives: a waiting thread gets the masked status, otherwise it is kept.
      The array's "nothing stored" is the word -1, so a status of -1 is not kept. */
  function OnInterrupt(d: Device, status: nat): (r: (Device, Option<Reply>)) {
    match d
    case Waiter(t) => (Idle, Some(Reply(t, Word(status % STATUS_MODULUS))))
    case _ => (if status == U32 - 1 then Idle else Status(status), None)
  }

  /** A WAITFORIO arrives: a kept status is handed out, otherwise the thread is kept. */
  function OnWait(d: Device, t: Tid): (r: (Device, Option<Reply>)) {
    match d
    case Status(s) => (Idle, Some(Reply(t, Word(s))))
    case _ => (Waiter(t), None)
  }

  /** Nothing is remembered of any device. */
  function AllIdle(): (r: seq<Device>)
    ensures |r| == DEVICES && forall i :: 0 <= i < DEVICES ==> r[i] == Idle
  {
    seq(DEVICES, _ => Device.Idle)
  }

  /** What a tick owes to the threads that wait for it. */
  function ClockReplies(ts: seq<Tid>): (r: seq<Reply>)
    ensures |r| == |ts| && forall i :: 0 <= i < |ts| ==> r[i] == Reply(ts[i], Word(42))
  {
    seq(|ts|, i requires 0 <= i < |ts| => Reply(ts[i], Word(42)))
  }

  datatype DevEvent = Interrupt(status: nat) | Wait(t: Tid)

  datatype DevRun = DevRun(dev: Device, replies: seq<Reply>)

  function OnEvent(d: Device, e: DevEvent): (r: (Device, Option<Reply>)) {
    match e
    case Interrupt(s) => OnInterrupt(d, s)
    case Wait(t) => OnWait(d, t)
  }

  /** What the SSI does with the events of one device. */
  function Serve(es: seq<DevEvent>): (r: DevRun) {
    if es == [] then DevRun(Idle, [])
    else
      var before := Serve(es[..|es| - 1]);
      var (d, reply) := OnEvent(before.dev, es[|es| - 1]);
      DevRun(d, before.replies + if reply.Some? then [reply.value] else [])
  }

  ghost function Statuses(es: seq<DevEvent>): (r: seq<nat>) {
    if es == [] then []
    else
      var e := es[|es| - 1];
      Statuses(es[..|es| - 1]) + if e.Interrupt? then [e.status] else []
  }

  ghost function Waiters(es: seq<DevEvent>): (r: seq<Tid>) {
    if es == [] then []
    else
      var e := es[|es| - 1];
      Waiters(es[..|es| - 1]) + if e.Wait? then [e.t] else []
  }

  /** Where the k-th interrupt stands in the history. */
  ghost function InterruptAt(es: seq<DevEvent>, k: nat): (i: nat)
    requires k < |Statuses(es)|
    ensures i < |es| && es[i] == Interrupt(Statuses(es)[k]) && |Statuses(es[..i])| == k
  {
    var m := |es| - 1;
    if k < |Statuses(es[..m])| then
      var i := InterruptAt(es[..m], k);
      assert es[..m][..i] == es[..i];
      i
    else m
  }

  /** Where the k-th WAITFORIO stands in the history. */
  ghost function WaitAt(es: seq<DevEvent>, k: nat): (i: nat)
    requires k < |Waiters(es)|
    ensures i < |es| && es[i] == Wait(Waiters(es)[k]) && |Waiters(es[..i])| == k
  {
    var m := |es| - 1;
    if k < |Waiters(es[..m])| then
      var i := WaitAt(es[..m], k);
      assert es[..m][..i] == es[..i];
      i
    else m
  }

  /** Neither side gets more than one ahead, and a status that is the word -1 finds a waiting thread. */
  ghost predicate Balanced(es: seq<DevEvent>) {
    es == [] ||
    (var n, m := |Statuses(es)|, |Waiters(es)|;
     Balanced(es[..|es| - 1]) && n <= m + 1 && m <= n + 1 &&
     (es[|es| - 1] == Interrupt(U32 - 1) ==> n <= m))
  }

  /** An event that would overwrite what is stored, or store the word that means "nothing". */
  predicate Loses(d: Device, e: DevEvent) {
    match e
    case Interrupt(s) => d.Status? || (s == U32 - 1 && !d.Waiter?)
    case Wait(t) => d.Waiter?
  }

  /** What the k-th WAITFORIO is answered: the k-th status, masked if the thread was there first. */
  ghost function Answer(es: seq<DevEvent>, k: nat): (w: nat)
    requires k < |Statuses(es)| && k < |Waiters(es)|
  {
    if WaitAt(es, k) < InterruptAt(es, k) then Statuses(es)[k] % STATUS_MODULUS else Statuses(es)[k]
  }

  /** On a balanced history the k-th WAITFORIO gets the k-th interrupt status, whichever came first: masked
      if the thread did, as it is if the interrupt did. The device holds exactly the side that is ahead. */
  lemma {:induction false} Rendezvous(es: seq<DevEvent>)
    requires Balanced(es)
    ensures var r, ss, ws := Serve(es), Statuses(es), Waiters(es);
      && |r.replies| == (if |ss| < |ws| then |ss| else |ws|)
      && (forall k :: 0 <= k < |r.replies| ==> r.replies[k] == Reply(ws[k], Word(Answer(es, k))))
      && r.dev == (if |ss| > |ws| then Status(ss[|ss| - 1]) else if |ss| < |ws| then Waiter(ws[|ws| - 1]) else Idle)
  {
    if es != [] {
      var before := es[..|es| - 1];
      Rendezvous(before);
      forall k | 0 <= k < |Serve(before).replies| ensures Answer(es, k) == Answer(before, k) {}
    }
  }

  /** The answer is the masked status if and only if the thread was there first or there was nothing to mask. */
  lemma MaskedIff(es: seq<DevEvent>, k: nat)
    requires k < |Statuses(es)| && k < |Waiters(es)|
    ensures Answer(es, k) == Statuses(es)[k] % STATUS_MODULUS <==>
      WaitAt(es, k) < InterruptAt(es, k) || Statuses(es)[k] < STATUS_MODULUS
  {}

  /** One more event keeps the history balanced exactly when it loses nothing: overwriting a status or a
      waiter, or a status of -1 that nobody waits for, is the only way a device gets out of step. */
  lemma BalancedIffNothingLost(es: seq<DevEvent>, e: DevEvent)
    requires Balanced(es)
    ensures Balanced(es + [e]) <==> !Loses(Serve(es).dev, e)
  {
    Rendezvous(es);
    assert (es + [e])[..|es|] == es;
  }
}
