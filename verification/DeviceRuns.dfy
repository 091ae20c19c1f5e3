/** Devices over whole runs: from the interrupt handler's report to the SSI's answer to WAITFORIO. */
module DeviceRuns {
  import opened Types
  import opened ProcessTree
  import opened ThreadQueues
  import opened Mailboxes
  import opened KernelSpec
  import opened Invariants
  import opened Runs
  import opened SsiRuns
  import opened Devices
  import Slots
  import Theorems
  import opened AnswerRuns
  import Frames

  // ----- one device in a run -----

  /** What the message that the SSI is about to serve means for device d, as it reads it. */
  ghost function DevEventOf(k: K, d: nat): (e: Option<DevEvent>) {
    var l := ReadLetter(k);
    match l.body
    case Irq(service, status, _) =>
      if service == INTERRUPT_MSG && l.from.Raw? && RestIndex(l.from.w) == d then Some(Interrupt(status)) else None
    case Req(service, arg) =>
      if service == WAITFORIO && Queued(k.q, l.from) && arg.Raw? && RestIndex(arg.w) == d then Some(DevEvent.Wait(l.from.t)) else None
    case _ => None
  }

  ghost function EventAt(r: Run, i: nat, d: nat): (e: Option<DevEvent>)
    requires i < |r.events| && i < |r.states|
  {
    if r.events[i].SsiServes? then DevEventOf(r.states[i], d) else None
  }

  /** The interrupts and WAITFORIO requests of device d, in the order in which the SSI serves them. */
  ghost function History(r: Run, i: nat, d: nat): (es: seq<DevEvent>)
    requires |r.states| == |r.events| + 1 && i <= |r.events|
  {
    if i == 0 then []
    else
      var e := EventAt(r, i - 1, d);
      History(r, i - 1, d) + if e.Some? then [e.value] else []
  }

  /** The answers that the SSI has prepared because of device d. */
  ghost function Answers(r: Run, i: nat, d: nat): (rs: seq<Reply>)
    requires |r.states| == |r.events| + 1 && i <= |r.events|
  {
    if i == 0 then []
    else Answers(r, i - 1, d) + if EventAt(r, i - 1, d).Some? then r.states[i].ssi.outbox else []
  }

  /** Serving a message is one event for at most one device. */
  lemma ServeDevice(k: K, d: nat)
    requires Safe(k) && Enabled(k, SsiServes) && d < DEVICES
    ensures Aged(k.tree)
    ensures var r, e := SsiServe(k), DevEventOf(k, d);
      if e.None? then r.ssi.dev[d] == k.ssi.dev[d]
      else
        var (dev, reply) := OnEvent(k.ssi.dev[d], e.value);
        r.ssi.dev[d] == dev && r.ssi.outbox == if reply.Some? then [reply.value] else []
  {
    hide MailOk, TrapsOk, PoolOk, Partition, RestIndex, OnWait, OnInterrupt, BrotherBorn, SonBorn, SetManager, ReadLetter, Terminate;
    if HeldLetter(k).body.Irq? { ReadIsWritten(k); }
    if HeldLetter(k).body.Req? && HeldLetter(k).from.Tcb? { SafeAged(k); Frames.TerminateKeeps(k, HeldLetter(k).from.t); }
    if k.q.free != [] && HeldLetter(k).body.Req? && Queued(k.q, HeldLetter(k).from) {
      BirthSsi(k, HeldLetter(k).from.t);
    }
    forall x: Tid, kind, m ensures SetManager(k, kind, x, m).ssi == k.ssi {
      Frames.SetManagerKeeps(k, kind, x, m);
    }
  }

  lemma BirthSsi(k: K, x: Tid)
    requires k.q.free != []
    ensures BrotherBorn(k, x).ssi == k.ssi && SonBorn(k, x).ssi == k.ssi
  {}

  lemma StepDevice(r: Run, i: nat, d: nat)
    requires IsRun(r) && i < |r.events| && d < DEVICES
    ensures var k, k', e := r.states[i], r.states[i + 1], EventAt(r, i, d);
      if e.None? then k'.ssi.dev[d] == k.ssi.dev[d]
      else
        var (dev, reply) := OnEvent(k.ssi.dev[d], e.value);
        k'.ssi.dev[d] == dev && k'.ssi.outbox == if reply.Some? then [reply.value] else []
  {
    hide Safe, Scheduler, Handle, SsiServe, OnEvent, DevEventOf;
    RanBefore(r, i);
    if r.events[i].SsiServes? {
      ServeDevice(r.states[i], d);
    } else {
      Frames.HandleKeeps(r.states[i], r.events[i], r.clocks[i]);
      Frames.SchedulerKeeps(Handle(r.states[i], r.events[i], r.clocks[i]), r.clocks[i]);
    }
  }

  /** In every run, device d is in the state that the rendezvous rules give for its history, and the
      answers are the ones that they give. */
  lemma {:induction false} DeviceFollowsRules(r: Run, i: nat, d: nat)
    requires IsRun(r) && i <= |r.events| && d < DEVICES
    ensures Serve(History(r, i, d)) == DevRun(r.states[i].ssi.dev[d], Answers(r, i, d))
  {
    hide Next, OnEvent, EventAt, Serve;
    if i == 0 {
      BootDevices(r.boot, r.bootClk);
    } else {
      DeviceFollowsRules(r, i - 1, d);
      DeviceStep(r, i - 1, d);
    }
  }

  lemma DeviceStep(r: Run, i: nat, d: nat)
    requires IsRun(r) && i < |r.events| && d < DEVICES
    requires Serve(History(r, i, d)) == DevRun(r.states[i].ssi.dev[d], Answers(r, i, d))
    ensures Serve(History(r, i + 1, d)) == DevRun(r.states[i + 1].ssi.dev[d], Answers(r, i + 1, d))
  {
    hide Next, OnEvent, EventAt;
    StepDevice(r, i, d);
    var es, e := History(r, i, d), EventAt(r, i, d);
    if e.Some? {
      assert (es + [e.value])[..|es|] == es;
    } else {
      assert es + [] == es && Answers(r, i, d) + [] == Answers(r, i, d);
    }
  }

  lemma BootDevices(boot: nat, clk: seq<nat>)
    requires |clk| == 8
    ensures Scheduler(Boot(boot), clk).ssi.dev == AllIdle() && Scheduler(Boot(boot), clk).ssi.clock == [] && Serve([]) == DevRun(Idle, [])
  {}

  // ----- the clock -----

  /** A tick is about to be served, as the SSI reads it. */
  ghost predicate TickAt(k: K) {
    ReadLetter(k).body.Irq? && ReadLetter(k).body.service == PSEUDOCLOCK_MSG
  }

  /** Who asked to wait for the next tick, by this message. */
  function Asks(k: K): (r: seq<Tid>) {
    var l := HeldLetter(k);
    if l.body.Req? && l.body.service == WAITFORCLOCK && Queued(k.q, l.from) then [l.from.t] else []
  }

  /** Who has asked to wait since the last tick was served, in order. */
  ghost function Asked(r: Run, i: nat): (ts: seq<Tid>)
    requires |r.states| == |r.events| + 1 && i <= |r.events|
  {
    if i == 0 then []
    else if !r.events[i - 1].SsiServes? then Asked(r, i - 1)
    else if TickAt(r.states[i - 1]) then []
    else Asked(r, i - 1) + Asks(r.states[i - 1])
  }

  function FirstOf(ts: seq<Tid>, n: nat): (r: seq<Tid>) {
    if |ts| <= n then ts else ts[..n]
  }

  /** In every run the clock array holds those who asked since the last tick, in order, up to its size. */
  lemma {:induction false} ClockHoldsAsked(r: Run, i: nat)
    requires IsRun(r) && i <= |r.events|
    ensures r.states[i].ssi.clock == FirstOf(Asked(r, i), NT - 1)
  {
    hide Next;
    if i == 0 {
      BootDevices(r.boot, r.bootClk);
    } else {
      ClockHoldsAsked(r, i - 1);
      ClockStep(r, i - 1);
    }
  }

  lemma ClockStep(r: Run, i: nat)
    requires IsRun(r) && i < |r.events| && r.states[i].ssi.clock == FirstOf(Asked(r, i), NT - 1)
    ensures r.states[i + 1].ssi.clock == FirstOf(Asked(r, i + 1), NT - 1)
  {
    hide Safe, Scheduler, Handle, SsiServe, Asks;
    RanBefore(r, i);
    if r.events[i].SsiServes? {
      ServeClock(r.states[i]);
      assert Asked(r, i) + [] == Asked(r, i);
    } else {
      Frames.HandleKeeps(r.states[i], r.events[i], r.clocks[i]);
      Frames.SchedulerKeeps(Handle(r.states[i], r.events[i], r.clocks[i]), r.clocks[i]);
    }
  }

  lemma ServeClock(k: K)
    requires Safe(k) && Enabled(k, SsiServes)
    ensures Aged(k.tree) && |Asks(k)| <= 1
    ensures TickAt(k) ==> SsiServe(k).ssi.clock == [] && SsiServe(k).ssi.outbox == ClockReplies(k.ssi.clock)
    ensures !TickAt(k) ==> SsiServe(k).ssi.clock == if |k.ssi.clock| < NT - 1 then k.ssi.clock + Asks(k) else k.ssi.clock
  {
    hide MailOk, TrapsOk, PoolOk, Partition, RestIndex, OnWait, OnInterrupt, BrotherBorn, SonBorn, SetManager, ReadLetter, Terminate;
    if HeldLetter(k).body.Req? && HeldLetter(k).from.Tcb? { SafeAged(k); Frames.TerminateKeeps(k, HeldLetter(k).from.t); }
    assert k.ssi.clock + [] == k.ssi.clock;
    if k.q.free != [] && HeldLetter(k).body.Req? && Queued(k.q, HeldLetter(k).from) {
      BirthSsi(k, HeldLetter(k).from.t);
    }
    forall x: Tid, kind, m ensures SetManager(k, kind, x, m).ssi == k.ssi {
      Frames.SetManagerKeeps(k, kind, x, m);
    }
  }

  /** When a tick is served, everybody who asked since the last one (up to the size of the array) gets one
      message, in the order of asking, and the array is empty again. */
  lemma TickAnswersAsked(r: Run, i: nat)
    requires IsRun(r) && i < |r.events| && r.events[i].SsiServes? && TickAt(r.states[i])
    ensures var asked := FirstOf(Asked(r, i), NT - 1);
      && r.states[i + 1].ssi.clock == []
      && r.states[i + 1].ssi.outbox == ClockReplies(asked)
      && forall j :: 0 <= j < |asked| ==> r.states[i + 1].ssi.outbox[j].to == asked[j]
  {
    RanBefore(r, i);
    ClockHoldsAsked(r, i);
    ServeClock(r.states[i]);
  }

  // ----- end to end -----

  /** In the first i steps, whenever the SSI followed an address, it found what had been written for that message. */
  ghost predicate AllIntact(r: Run, i: nat)
    requires |r.states| == |r.events| + 1 && i <= |r.events|
  {
    forall j {:trigger Intact(r.states[j])} :: 0 <= j < i && r.events[j].SsiServes? ==> Intact(r.states[j])
  }

  /** The SSI is prompt: at most 47 entries of the handler follow the one whose message it serves. */
  ghost predicate Prompt(k: K) {
    HeldLetter(k).body.Irq? ==>
      exists n :: 0 <= n < |k.written| && |k.written| <= n + SLOTS && k.written[n] == Some(HeldLetter(k))
  }

  lemma PromptIsIntact(r: Run, i: nat)
    requires IsRun(r) && i <= |r.events|
    requires forall j {:trigger Prompt(r.states[j])} :: 0 <= j < i && r.events[j].SsiServes? ==> Prompt(r.states[j])
    ensures AllIntact(r, i)
  {
    hide Next;
    forall j | 0 <= j < i && r.events[j].SsiServes? ensures Intact(r.states[j]) {
      assert Prompt(r.states[j]);
      OneIntact(r, j);
    }
  }

  lemma OneIntact(r: Run, j: nat)
    requires IsRun(r) && j < |r.events| && r.events[j].SsiServes? && Prompt(r.states[j])
    ensures Intact(r.states[j])
  {
    hide Step, Enabled;
    RanBefore(r, j);
    PromptIntact(r.states[j]);
  }

  lemma PromptIntact(k: K)
    requires Safe(k) && Prompt(k)
    ensures Intact(k)
  {
    if HeldLetter(k).body.Irq? {
      var n :| 0 <= n < |k.written| && |k.written| <= n + SLOTS && k.written[n] == Some(HeldLetter(k));
      SlotOf(k, n);
      Slots.StillThere(Slots.Contents(k.written), n);
      WriterIsWritten(k, n);
    }
  }

  /** A prompt SSI never meets what runs leave out. */
  lemma PromptIsReadable(k: K)
    requires Safe(k) && Prompt(k) && k.q.cur == Some(SSI) && k.ssi.pc == Got
    ensures LetterOk(k.written, HeldLetter(k)) && Readable(k)
  {
    PromptIntact(k);
    NotInWait(k);
  }

  lemma SlotOf(k: K, n: nat)
    requires Safe(k) && n < |k.written| && k.written[n].Some?
    ensures k.written[n].value.body.Irq? && k.written[n].value.body.at == n % SLOTS
  {}

  /** These are interrupt messages with these statuses. */
  ghost predicate Report(ps: seq<Payload>, ss: seq<nat>) {
    |ps| == |ss| && forall i :: 0 <= i < |ss| ==> ps[i].Irq? && ps[i].service == INTERRUPT_MSG && ps[i].status == ss[i]
  }

  /** The statuses in a device's history are those of the messages served from its register, as long as the slots are
      intact. */
  lemma {:induction false} StatusesServed(r: Run, i: nat, w: nat)
    requires IsRun(r) && i <= |r.events| && RestIndex(w) != -1 && AllIntact(r, i)
    ensures Report(From(ServedLetters(r, i), Raw(w)), Statuses(History(r, i, RestIndex(w))))
  {
    hide Next, RestIndex, EventAt, Statuses, Report;
    if i == 0 {
      NothingServed();
    } else {
      StatusesServed(r, i - 1, w);
      StatusStep(r, i - 1, w);
    }
  }

  lemma NothingServed()
    ensures Report([], Statuses([]))
  {}

  lemma StatusStep(r: Run, i: nat, w: nat)
    requires IsRun(r) && i < |r.events| && RestIndex(w) != -1 && (r.events[i].SsiServes? ==> Intact(r.states[i]))
    requires Report(From(ServedLetters(r, i), Raw(w)), Statuses(History(r, i, RestIndex(w))))
    ensures Report(From(ServedLetters(r, i + 1), Raw(w)), Statuses(History(r, i + 1, RestIndex(w))))
  {
    hide Next, RestIndex, DevEventOf, From, Statuses, Report;
    var d := RestIndex(w);
    var es, e := History(r, i, d), EventAt(r, i, d);
    var ss := if e.Some? && e.value.Interrupt? then [e.value.status] else [];
    StatusesGrow(es, if e.Some? then [e.value] else []);
    if r.events[i].SsiServes? {
      var l := HeldLetter(r.states[i]);
      RanBefore(r, i);
      FromAppend(ServedLetters(r, i), l, Raw(w));
      ServedMeans(r.states[i], w);
      ReportGrows(From(ServedLetters(r, i), Raw(w)), Statuses(es), if l.from == Raw(w) then [l.body] else [], ss);
    } else {
      assert ServedLetters(r, i) + [] == ServedLetters(r, i);
      assert Statuses(es) + ss == Statuses(es);
    }
  }

  lemma ReportGrows(ps: seq<Payload>, ss: seq<nat>, p: seq<Payload>, s: seq<nat>)
    requires Report(ps, ss) && |p| == |s| <= 1
    requires p != [] ==> p[0].Irq? && p[0].service == INTERRUPT_MSG && p[0].status == s[0]
    ensures Report(ps + p, ss + s)
  {}

  lemma StatusesGrow(es: seq<DevEvent>, more: seq<DevEvent>)
    requires |more| <= 1
    ensures Statuses(es + more) == Statuses(es) + if more != [] && more[0].Interrupt? then [more[0].status] else []
  {
    if more == [] {
      assert es + more == es;
    } else {
      assert (es + more)[..|es|] == es;
    }
  }

  /** A message from register w is an interrupt of its device, and only that is. */
  lemma ServedMeans(k: K, w: nat)
    requires Enabled(k, SsiServes) && RestIndex(w) != -1 && Intact(k)
    ensures var l, e := HeldLetter(k), DevEventOf(k, RestIndex(w));
      if l.from == Raw(w) then e.Some? && e.value.Interrupt? && l.body.Irq? && l.body.service == INTERRUPT_MSG && l.body.status == e.value.status
      else e.Some? ==> e.value.Wait?
  {
    var l := HeldLetter(k);
    if l.from.Raw? && l.body.Irq? && RestIndex(l.from.w) == RestIndex(w) {
      IndexInjective(l.from.w, w);
    }
  }

  /** What has been received is an initial part of what has been reported. */
  lemma ServedFirst(r: Run, i: nat, a: Addr)
    requires IsRun(r) && i <= |r.events| && r.states[i].status == Running && a.Raw?
    ensures From(ServedLetters(r, i) + InHand(r.states[i]), a) <= ReportsOf(Entries(r, i), a)
  {
    SsiServesAll(r, i, a);
    Theorems.SsiAlive(r, i);
    Theorems.ChannelsAreFifo(r, i, SSI, a);
  }

  lemma FromPrefix(ls: seq<Letter>, more: seq<Letter>, a: Addr)
    requires |more| <= 1
    ensures From(ls, a) <= From(ls + more, a)
  {
    if more == [] {
      assert ls + more == ls;
    } else {
      FromAppend(ls, more[0], a);
    }
  }

  /** As long as the slots are intact and neither side of a device gets more than one ahead, the k-th WAITFORIO on it is answered with
      the status of the k-th interrupt that the handler reported for it: masked if the thread asked
      first, as it was if the interrupt came first. */
  lemma KthWaiterGetsKthInterrupt(r: Run, i: nat, w: nat, k: nat)
    requires IsRun(r) && i <= |r.events| && r.states[i].status == Running && RestIndex(w) != -1 && AllIntact(r, i)
    requires Balanced(History(r, i, RestIndex(w))) && k < |Answers(r, i, RestIndex(w))|
    ensures var reports, es := ReportsOf(Entries(r, i), Raw(w)), History(r, i, RestIndex(w));
      && k < |reports| && reports[k].Irq? && k < |Statuses(es)| && k < |Waiters(es)|
      && reports[k].status == Statuses(es)[k]
      && Answers(r, i, RestIndex(w))[k] == Reply(Waiters(es)[k], Word(Answer(es, k)))
  {
    hide Next, RestIndex, Balanced, Serve, Answer;
    var d := RestIndex(w);
    DeviceFollowsRules(r, i, d);
    Rendezvous(History(r, i, d));
    StatusesServed(r, i, w);
    ServedFirst(r, i, Raw(w));
    FromPrefix(ServedLetters(r, i), InHand(r.states[i]), Raw(w));
  }

  /** The number, among all answers of the SSI, of the k-th one because of device d. */
  ghost function AnswerNumber(r: Run, i: nat, d: nat, k: nat): (n: nat)
    requires |r.states| == |r.events| + 1 && i <= |r.events| && k < |Answers(r, i, d)|
    ensures n < |Prepared(r, i)| && Prepared(r, i)[n] == Answers(r, i, d)[k]
  {
    var before := Answers(r, i - 1, d);
    if k < |before| then AnswerNumber(r, i - 1, d, k) else |Prepared(r, i - 1)| + (k - |before|)
  }

  /** The step that serves the k-th WAITFORIO on device d. */
  ghost function AskedAt(r: Run, i: nat, d: nat, k: nat): (a: nat)
    requires |r.states| == |r.events| + 1 && i <= |r.events| && k < |Waiters(History(r, i, d))|
    ensures a < i && EventAt(r, a, d) == Some(DevEvent.Wait(Waiters(History(r, i, d))[k]))
    ensures |Waiters(History(r, a, d))| == k
  {
    var es, e := History(r, i - 1, d), EventAt(r, i - 1, d);
    assert e.Some? ==> (es + [e.value])[..|es|] == es;
    assert e.None? ==> es + [] == es;
    if k < |Waiters(es)| then AskedAt(r, i - 1, d, k) else i - 1
  }

  /** Once that answer has been sent, exactly one step s has sent it. The thread that asked accepts it as a letter from
      the SSI, with the value above, if and only if it is still alive then, in the incarnation that asked;
      `AnswerTaken` says at which place it then receives it. */
  lemma WaiterReceivesStatus(r: Run, i: nat, w: nat, k: nat) returns (s: nat)
    requires IsRun(r) && i <= |r.events| && r.states[i].status == Running && RestIndex(w) != -1 && AllIntact(r, i)
    requires Balanced(History(r, i, RestIndex(w))) && k < |Answers(r, i, RestIndex(w))|
    requires AnswerNumber(r, i, RestIndex(w), k) < |Sent(r, i)|
    ensures var es, reports := History(r, i, RestIndex(w)), ReportsOf(Entries(r, i), Raw(w));
      && k < |Waiters(es)| && k < |Statuses(es)| && k < |reports| && reports[k].Irq? && reports[k].status == Statuses(es)[k]
      && s < i && Replies(r, s) && |Sent(r, s)| == AnswerNumber(r, i, RestIndex(w), k)
      && r.states[s].ssi.outbox[0] == Reply(Waiters(es)[k], Word(Answer(es, k)))
      && ReachesIff(r, s, r.states[AskedAt(r, i, RestIndex(w), k)])
  {
    hide Next, RestIndex, Balanced, Answer, Statuses, Waiters, History, Answers;
    KthWaiterGetsKthInterrupt(r, i, w, k);
    var d := RestIndex(w);
    s := SendStep(r, i, AnswerNumber(r, i, d, k));
    OutboxDrains(r, i);
    RanThrough(r, s + 1, i);
    AnswerReachesAsker(r, s, r.states[AskedAt(r, i, d, k)].tree.birth[r.states[s].ssi.outbox[0].to]);
  }

  /** The answer sent in step s reaches its receiver, in the incarnation that it had in state `asked`, if and only if that
      incarnation is still alive. */
  ghost predicate ReachesIff(r: Run, s: nat, asked: K)
    requires Replies(r, s) && |r.states| == |r.events| + 1
  {
    var k, k', a := r.states[s], r.states[s + 1], r.states[s].ssi.outbox[0];
    (k'.tree.birth[a.to] == asked.tree.birth[a.to] && k'.mail.log[a.to] == k.mail.log[a.to] + [Letter(Magic, a.body)])
    <==> (Live(k.q, a.to) && k.tree.birth[a.to] == asked.tree.birth[a.to])
  }

  // ----- ticks end to end -----

  /** The steps in which the threads of `Asked` asked. */
  ghost function AskSteps(r: Run, i: nat): (ss: seq<nat>)
    requires |r.states| == |r.events| + 1 && i <= |r.events|
    ensures |ss| == |Asked(r, i)|
    ensures forall j :: 0 <= j < |ss| ==> ss[j] < i && Asks(r.states[ss[j]]) == [Asked(r, i)[j]]
  {
    if i == 0 then []
    else if !r.events[i - 1].SsiServes? then AskSteps(r, i - 1)
    else if TickAt(r.states[i - 1]) then []
    else AskSteps(r, i - 1) + if Asks(r.states[i - 1]) == [] then [] else [i - 1]
  }

  lemma TickPrepared(r: Run, i: nat, j: nat)
    requires IsRun(r) && i < |r.events| && r.events[i].SsiServes? && TickAt(r.states[i])
    requires j < |FirstOf(Asked(r, i), NT - 1)|
    ensures |Prepared(r, i)| + j < |Prepared(r, i + 1)| && Prepared(r, i + 1)[|Prepared(r, i)| + j] == Reply(Asked(r, i)[j], Word(42))
    ensures j < |Asked(r, i)|
  {
    hide Next, Asked, TickAt;
    TickAnswersAsked(r, i);
  }

  /** A served tick prepares one message for each thread that asked since the last one, in order. Each is sent by exactly
      one step, and reaches the thread if and only if it is still alive, in the incarnation that asked. */
  lemma TickReachesAsked(r: Run, i: nat, z: nat, j: nat) returns (s: nat)
    requires IsRun(r) && i < z <= |r.events| && r.states[z].status == Running && r.events[i].SsiServes? && TickAt(r.states[i])
    requires j < |FirstOf(Asked(r, i), NT - 1)| && |Prepared(r, i)| + j < |Sent(r, z)|
    ensures s < z && Replies(r, s) && |Sent(r, s)| == |Prepared(r, i)| + j
    ensures r.states[s].ssi.outbox[0] == Reply(Asked(r, i)[j], Word(42))
    ensures ReachesIff(r, s, r.states[AskSteps(r, i)[j]])
  {
    hide Next, Asked, AskSteps, TickAt, Prepared, Sent, FirstOf;
    TickPrepared(r, i, j);
    PreparedThenSent(r, i + 1, z, |Prepared(r, i)| + j);
    s := SendStep(r, z, |Prepared(r, i)| + j);
    RanThrough(r, s + 1, z);
    AnswerReachesAsker(r, s, r.states[AskSteps(r, i)[j]].tree.birth[r.states[s].ssi.outbox[0].to]);
  }

  // ----- by reference -----

  /** Every interrupt message that the SSI serves, tick or device, was written by a definite entry n of the
      handler in slot n modulo 48, and its address is that slot. It is read back intact if at most 47 entries
      followed, and in any case if no later entry wrote the same slot. */
  lemma ReadByReference(r: Run, i: nat) returns (n: nat)
    requires IsRun(r) && i < |r.events| && r.events[i].SsiServes? && HeldLetter(r.states[i]).body.Irq?
    ensures var k, l := r.states[i], HeldLetter(r.states[i]);
      && n < |k.written| && k.written[n] == Some(l) && l.body.at == n % SLOTS
      && (|k.written| <= n + SLOTS ==> Intact(k))
      && ((forall m :: n + SLOTS <= m < |k.written| && m % SLOTS == n % SLOTS ==> k.written[m].None?) ==> Intact(k))
  {
    hide Next;
    RanBefore(r, i);
    var k := r.states[i];
    n := HeldWritten(k);
    Slots.StillThere(Slots.Contents(k.written), n);
    if Slots.Writer(Slots.Contents(k.written), n % SLOTS) == n {
      WriterIsWritten(k, n);
    }
  }

  /** What the last writer of the slot wrote is what is read. */
  lemma WriterIsWritten(k: K, n: nat)
    requires n < |k.written| && k.written[n] == Some(HeldLetter(k)) && HeldLetter(k).body.Irq?
    requires Slots.Writer(Slots.Contents(k.written), HeldLetter(k).body.at) == n
    ensures Intact(k)
  {}
}
