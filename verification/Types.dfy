/** The kernel's constants and its state, as values.

    Tables that the source keeps as one field per control block (`tcb_t`, `msg_t`) are
    sequences indexed by the control block's number. Fields marked "history" do not exist in
    the source: no step of the model branches on them. */
module Types {
  const NT: nat := 20   // MAXTHREADS
  const NM: nat := 20   // MAXMESSAGES
  const U32: nat := 0x1_0000_0000
  const DEVICES: nat := 48
  const TIME_SLICE: nat := 5000
  const PSEUDO_CLOCK: nat := 100000

  const CREATEBROTHER: nat := 1
  const CREATESON: nat := 2
  const TERMINATE: nat := 3
  const SPECPRGMGR: nat := 4
  const SPECTLBMGR: nat := 5
  const SPECSYSMGR: nat := 6
  const GETCPUTIME: nat := 7
  const WAITFORCLOCK: nat := 8
  const WAITFORIO: nat := 9
  const PSEUDOCLOCK_MSG: nat := 254
  const INTERRUPT_MSG: nat := 255
  const SLOTS: nat := 48   // interrupt_msg_array
  const STATUS_MODULUS: nat := 256   // `x & STATUSMASK`, which is 0xFF, is `x % 256`

  type Tid = t: nat | t < NT witness 0
  type Mid = m: nat | m < NM witness 0

  const SSI: Tid := 0    // boot allocates it first
  const TEST: Tid := 1

  datatype Option<+T> = None | Some(value: T)

  /** A 32-bit word used as a thread address. `Null` is also ANYMESSAGE; `Magic` is MAGIC_SSI,
      which is also the `-1` that `waiting_for` is reset to. */
  datatype Addr = Null | Magic | Timer | Tcb(t: Tid) | Raw(w: nat)

  /** A message payload. `Req` and `Irq` stand for the address of a request structure. An `Irq` is the address
      of slot `at` of the interrupt handler; service and status are what the handler wrote there for it, and not
      necessarily what is there when the SSI looks. */
  datatype Payload =
    | Word(w: nat)
    | Ptr(a: Addr)
    | Req(service: nat, arg: Addr)
    | Irq(service: nat, status: nat, at: nat)

  const TRAPTERMINATE: Payload := Word(0)
  const TRAPCONTINUE: Payload := Word(1)

  datatype Letter = Letter(from: Addr, body: Payload)
  datatype Msg = Msg(id: Mid, letter: Letter)

  datatype Queues = Queues(ready: seq<Tid>, wait: seq<Tid>, free: seq<Tid>, cur: Option<Tid>)

  /** `kin[t]` is the owner of the node `t_sib.prev` of a parentless thread t.
      History: `birth[t]` is the serial number of t's allocation, `next` the next serial. */
  datatype TreeRec = Tree(parent: seq<Option<Tid>>, kids: seq<seq<Tid>>, kin: seq<Tid>,
                          birth: seq<nat>, next: nat)
  type Tree = tr: TreeRec |
      |tr.parent| == NT && |tr.kids| == NT && |tr.kin| == NT && |tr.birth| == NT
    witness Tree(seq(NT, _ => None), seq(NT, _ => []), seq(NT, _ => 0), seq(NT, _ => 0), 0)

  /** `v0[t]` and `val[t]`: the returned sender and the word behind the reply pointer.
      History: `frozen[t]` separates a trap-frozen thread from one blocked in MsgRecv;
      `log[t]` and `got[t]` are the letters accepted for and delivered to t since it was allocated. */
  datatype MailRec = Mail(inbox: seq<seq<Msg>>, free: seq<Mid>, waitingFor: seq<Addr>,
                          v0: seq<Addr>, val: seq<Payload>,
                          frozen: seq<bool>, log: seq<seq<Letter>>, got: seq<seq<Letter>>)
  type Mail = m: MailRec |
      |m.inbox| == NT && |m.waitingFor| == NT && |m.v0| == NT && |m.val| == NT &&
      |m.frozen| == NT && |m.log| == NT && |m.got| == NT
    witness Mail(seq(NT, _ => []), [], seq(NT, _ => Magic), seq(NT, _ => Null),
                 seq(NT, _ => Word(0)), seq(NT, _ => false), seq(NT, _ => []), seq(NT, _ => []))

  datatype TrapKind = SysBp | PgmTrap | TlbTrap

  /** Per-thread trap managers, and the `trap_managers` array. */
  datatype TrapsRec = Traps(sys: seq<Addr>, pgm: seq<Addr>, tlb: seq<Addr>, managers: seq<Addr>)
  type Traps = r: TrapsRec | |r.sys| == NT && |r.pgm| == NT && |r.tlb| == NT && |r.managers| == NT
    witness Traps(seq(NT, _ => Null), seq(NT, _ => Null), seq(NT, _ => Null), seq(NT, _ => Null))

  /** What the SSI remembers of one device: nothing, an unclaimed status, or a waiting thread. */
  datatype Device = Idle | Status(status: nat) | Waiter(t: Tid)

  datatype Reply = Reply(to: Tid, body: Payload)

  /** Where the SSI thread stands: before MsgRecv, just after it, or with replies left to send. */
  datatype Pc = AtRecv | Got | Sending

  datatype SsiRec = Ssi(pc: Pc, outbox: seq<Reply>, dev: seq<Device>, clock: seq<Tid>)
  type Ssi = s: SsiRec | |s.dev| == DEVICES
    witness Ssi(AtRecv, [], seq(DEVICES, _ => Idle), [])

  /** Times are readings of the time-of-day clock; the registers of the source hold them modulo
      2^32. `tod` is current_thread_tod, `start` is start_pseudo_tick.
      History: `now` (last reading), `origin`, `used` (cpu time since allocation, not wrapped),
      `ticks` (pseudo-clock messages sent), `charged` (cpu time ever charged to any thread),
      `dispatches` (threads taken from ready_queue). */
  datatype TimeRec = Time(now: nat, origin: nat, tod: nat, start: nat, pseudo: nat, timer: nat,
                          cpuTime: seq<nat>, cpuSlice: seq<nat>, used: seq<nat>,
                          ticks: nat, charged: nat, dispatches: nat)
  type Time = m: TimeRec | |m.cpuTime| == NT && |m.cpuSlice| == NT && |m.used| == NT
    witness Time(0, 0, 0, 0, 0, 0, seq(NT, _ => 0), seq(NT, _ => 0), seq(NT, _ => 0), 0, 0, 0)

  datatype RunStatus = Running | Halted | Panicked

  /** The whole kernel. History: `reqs` counts the requests ever sent to MAGIC_SSI; `written` has one element
      for each entry of the interrupt handler, the message that it wrote for the SSI, if any. */
  datatype K = K(q: Queues, tree: Tree, mail: Mail, traps: Traps, ssi: Ssi, tm: Time,
                 threadCount: nat, softBlock: nat, reqs: nat, written: seq<Option<Letter>>, status: RunStatus)

  /** Thread t is in some queue other than the free list, or on the CPU. */
  predicate Live(q: Queues, t: Tid) {
    t in q.ready || t in q.wait || q.cur == Some(t)
  }

  /** Found by `thereIsThread` in one of the two queues. */
  predicate Queued(q: Queues, a: Addr) {
    a.Tcb? && (a.t in q.ready || a.t in q.wait)
  }

  /** Unsigned 32-bit arithmetic. */
  function Add32(a: nat, b: nat): (r: nat)
    ensures r < U32 && r <= a + b
  {
    (a + b) % U32
  }

  function Sub32(a: nat, b: nat): (r: nat)
    ensures r < U32
  {
    (a - b) % U32
  }
}
