/** The main results, stated for every state of every run. */
module Theorems {
  import opened Types
  import opened Sequences
  import opened ProcessTree
  import opened ThreadQueues
  import opened Mailboxes
  import opened KernelSpec
  import opened Invariants
  import opened Accounts
  import opened Timing
  import opened Runs
  import Devices
  import Frames

  // ----- the two pools -----

  /** Each control block is in exactly one of the free list, ready_queue, wait_queue and the CPU, once;
      and `thread_count` is the number of those not free. */
  lemma ThreadsPartitioned(r: Run, i: nat, t: Tid)
    requires IsRun(r) && i < |r.states|
    ensures var k := r.states[i];
      && multiset(k.q.free)[t] + multiset(k.q.ready)[t] + multiset(k.q.wait)[t] + (if k.q.cur == Some(t) then 1 else 0) == 1
      && k.threadCount == NT - |k.q.free|
  {
    Reachable(r, i);
    assert Places(r.states[i].q, t) == 1;
  }

  /** Message m is in the free list, or once in the inbox of one live thread, and nowhere else. */
  lemma MessagesConserved(r: Run, i: nat, m: Mid)
    requires IsRun(r) && i < |r.states|
    ensures var k := r.states[i];
      && multiset(k.mail.free)[m] + Held(k.mail.inbox, NT, m) == 1
      && (m !in k.mail.free ==> exists t: Tid :: Live(k.q, t) && m in Ids(k.mail.inbox[t]))
  {
    Reachable(r, i);
    var k := r.states[i];
    if m !in k.mail.free {
      PartitionMeans(k.q);
      var t := Holder(k.mail.inbox, NT, m);
      assert Ids([]) == [];
    }
  }

  lemma {:induction false} Holder(inbox: seq<seq<Msg>>, n: nat, m: Mid) returns (t: Tid)
    requires |inbox| == NT && n <= NT && Held(inbox, n, m) > 0
    ensures m in Ids(inbox[t])
  {
    if multiset(Ids(inbox[n - 1]))[m] > 0 {
      t := n - 1;
    } else {
      t := Holder(inbox, n - 1, m);
    }
  }

  // ----- messages -----

  /** What a live thread has received from a sender is a prefix of what that sender had accepted for it
      since the thread was created; what is missing is exactly what is in the inbox, in order. */
  lemma ChannelsAreFifo(r: Run, i: nat, t: Tid, a: Addr)
    requires IsRun(r) && i < |r.states| && Live(r.states[i].q, t) && a != Timer
    ensures var m := r.states[i].mail;
      && From(m.got[t], a) <= From(m.log[t], a)
      && From(m.log[t], a)[|From(m.got[t], a)|..] == From(Letters(m.inbox[t]), a)
  {
    Reachable(r, i);
    assert DeliveryOk(r.states[i].mail, t);
  }

  /** No letter is lost or delivered twice, pseudo-clock ticks included. */
  lemma DeliveredOnce(r: Run, i: nat, t: Tid)
    requires IsRun(r) && i < |r.states| && Live(r.states[i].q, t)
    ensures var m := r.states[i].mail;
      multiset(m.log[t]) == multiset(m.got[t]) + multiset(Letters(m.inbox[t]))
  {
    Reachable(r, i);
    assert DeliveryOk(r.states[i].mail, t);
  }

  /** A thread blocked in MsgRecv has no message that it waits for. */
  lemma NoLostWakeUp(r: Run, i: nat, t: Tid)
    requires IsRun(r) && i < |r.states|
    requires t in r.states[i].q.wait && !r.states[i].mail.frozen[t]
    ensures var m := r.states[i].mail;
      if m.waitingFor[t] == Null then m.inbox[t] == []
      else forall j :: 0 <= j < |m.inbox[t]| ==> m.inbox[t][j].letter.from != m.waitingFor[t]
  {
    Reachable(r, i);
  }

  /** A pending pseudo-clock tick is what the next MsgRecv from anyone takes. */
  lemma TickTakenFirst(r: Run, i: nat, t: Tid, j: nat)
    requires IsRun(r) && i < |r.states|
    requires r.states[i].q.cur == Some(t) && j < |r.states[i].mail.inbox[t]|
    requires r.states[i].mail.inbox[t][j].letter.from == Timer
    ensures Recv(r.states[i], Null).mail.v0[t] == Timer
  {
    Reachable(r, i);
    assert TicksFirst(r.states[i].mail.inbox[t]);
  }

  /** Why runs leave out `send` to a frozen thread by the manager it waits for: the message overtakes what the
      manager sent earlier, unless that says the same. */
  lemma FrozenHandOff(r: Run, i: nat, m: Tid, t: Tid, body: Payload)
    requires IsRun(r) && i < |r.states| && m != SSI
    requires t in r.states[i].q.wait && r.states[i].mail.frozen[t] && r.states[i].mail.waitingFor[t] == Tcb(m)
    ensures var box := r.states[i].mail.inbox[t];
      Fifo(Send(r.states[i], Tcb(m), Tcb(t), body).mail, t) <==>
        forall j :: 0 <= j < |box| && box[j].letter.from == Tcb(m) ==> box[j].letter.body == body
  {
    Reachable(r, i);
    var k := r.states[i];
    PartitionMeans(k.q);
    assert DeliveryOk(k.mail, t);
    HandOverFifoIff(k.mail, t, Letter(Tcb(m), body));
  }

  // ----- the tree -----

  /** Child lists and `t_parent` agree, no live thread has a dead relative, and no thread is its own ancestor. */
  lemma TreeWellFormed(r: Run, i: nat, p: Tid, c: Tid)
    requires IsRun(r) && i < |r.states|
    ensures var k := r.states[i];
      && (c in k.tree.kids[p] <==> k.tree.parent[c] == Some(p))
      && NoDup(k.tree.kids[p])
      && (c in k.tree.kids[p] ==> Live(k.q, c) && Live(k.q, p))
      && TreeOk(k.tree)
      && (k.tree.parent[c].Some? ==> !Under(k.tree, k.tree.parent[c].value, c))
  {
    Reachable(r, i);
    var k := r.states[i];
    PartitionMeans(k.q);
    if k.tree.parent[c].Some? && Under(k.tree, k.tree.parent[c].value, c) {
      UnderAge(k.tree, k.tree.parent[c].value, c);
    }
  }

  // ----- terminate -----

  /** `terminate` of a live thread frees exactly that thread and its descendants, each once; no thread of
      the subtree is missed by the queues, and the dead inboxes go back to the pool. */
  lemma TerminateFreesSubtree(k: K, t: Tid)
    requires Structure(k) && Live(k.q, t)
    ensures var k', ds := Terminate(k, t), PostOrder(k.tree, t);
      && k'.status == k.status
      && NoDup(ds) && (forall x: Tid :: x in ds <==> Under(k.tree, x, t))
      && (forall x: Tid :: x in ds ==> Live(k.q, x) && Dormant(k', x))
      && k'.q.free == k.q.free + ds
      && k'.mail.free == k.mail.free + HeldBy(k.mail.inbox, ds)
      && k'.threadCount == k.threadCount - |ds|
  {
    hide Partition, PoolOk, Under, PostOrder, HeldBy;
    var ds := PostOrder(k.tree, t);
    SubtreeAlive(k, t);
    ReapOk(k.q, ds);
    KillCount(k, ds);
    forall x: Tid ensures x in ds <==> Under(k.tree, x, t) {
      PostOrderMembers(k.tree, t, x);
    }
  }

  /** Everyone outside the subtree keeps queue, order, inbox and relatives, except that the parent of t
      loses that one child. */
  lemma TerminateSparesOthers(k: K, t: Tid, x: Tid)
    requires Structure(k) && Live(k.q, t) && !Under(k.tree, x, t)
    ensures var k', ds := Terminate(k, t), Elems(PostOrder(k.tree, t));
      && k'.q.ready == Minus(k.q.ready, ds) && k'.q.wait == Minus(k.q.wait, ds)
      && (x in k'.q.ready <==> x in k.q.ready) && (x in k'.q.wait <==> x in k.q.wait)
      && (k'.q.cur == Some(x) <==> k.q.cur == Some(x))
      && k'.mail.inbox[x] == k.mail.inbox[x] && k'.mail.waitingFor[x] == k.mail.waitingFor[x]
      && k'.tree.parent[x] == k.tree.parent[x]
      && k'.tree.kids[x] == Minus(k.tree.kids[x], {t})
  {
    PostOrderMembers(k.tree, t, x);
    OnlyRootLeaves(k.tree, x, t);
  }

  /** Outside the subtree of t, the only child that can be in it is t itself. */
  lemma OnlyRootLeaves(tr: Tree, x: Tid, t: Tid)
    requires TreeOk(tr) && !Under(tr, x, t)
    ensures Minus(tr.kids[x], Elems(PostOrder(tr, t))) == Minus(tr.kids[x], {t})
  {
    var ds := PostOrder(tr, t);
    forall c | c in tr.kids[x] ensures c in ds <==> c == t {
      PostOrderMembers(tr, t, c);
    }
    MinusSame(tr.kids[x], Elems(ds), {t});
  }

  // ----- the SSI, HALT and PANIC -----

  /** The SSI is alive, and whatever it holds after MsgRecv is a message it can serve. */
  lemma SsiAlive(r: Run, i: nat)
    requires IsRun(r) && i < |r.states|
    ensures var k := r.states[i];
      && Live(k.q, SSI) && SendResult(k, Tcb(SSI)) == Null
      && (k.q.cur == Some(SSI) && k.ssi.pc == Got ==> LetterOk(k.written, HeldLetter(k)))
      && (k.ssi.pc == Sending <==> k.ssi.outbox != [])
  {
    Reachable(r, i);
    PartitionMeans(r.states[i].q);
  }

  /** The system shuts down only when the SSI is the one thread left. */
  lemma HaltMeansSsiAlone(r: Run, i: nat, t: Tid)
    requires IsRun(r) && i < |r.states| && r.states[i].status == Halted && Live(r.states[i].q, t)
    ensures t == SSI
  {
    Reachable(r, i);
    OnlyOne(r.states[i].q, SSI);
  }

  /** Until the 32-bit request count could wrap, `soft_block_count` does not underflow and is never below the
      number of open requests. (It can stay above it: see `HandOverLeaks`.) */
  lemma SoftBlockCovers(r: Run, i: nat)
    requires IsRun(r) && i < |r.states| && r.states[i].reqs < U32
    ensures Outstanding(r.states[i]) <= r.states[i].softBlock <= r.states[i].reqs
  {
    Reachable(r, i);
  }

  /** The scheduler's PANIC is the deadlock one: no thread can run, several are left, and (before the
      request counter can wrap) no request to the SSI is open anywhere in the system. */
  lemma DeadlockPanicIsSound(h: K, clk: seq<nat>)
    requires |clk| == 8 && Safe(h) && Covered(h) && h.status == Running
    requires Scheduler(h, clk).status == Panicked
    ensures h.q.cur == None && h.q.ready == [] && h.threadCount > 1 && h.softBlock == 0
    ensures h.reqs < U32 ==> Outstanding(h) == 0
  {
    if h.threadCount == 0 {
      PartitionMeans(h.q);
    }
  }

  /** When a step of a run panics after its handler succeeded, no request is open. */
  lemma DeadlockPanicInRuns(r: Run, i: nat)
    requires IsRun(r) && i < |r.events| && !r.events[i].SsiServes?
    requires Handled(r, i).status == Running && r.states[i + 1].status == Panicked
    ensures r.states[i + 1].reqs < U32 ==> Outstanding(r.states[i + 1]) == 0
  {
    Reachable(r, i);
    RunStep(r, i);
    var k, e, clk := r.states[i], r.events[i], r.clocks[i];
    HandleSafe(k, e, clk);
    HandleCovered(k, e, clk);
    DeadlockPanicIsSound(Handle(k, e, clk), clk);
  }

  // ----- time -----

  /** k pseudo-clock messages take at least k periods, for every clock that does not go back. */
  lemma TickRate(r: Run, i: nat)
    requires IsRun(r) && i < |r.states| && r.states[i].status == Running
    ensures var tm := r.states[i].tm; tm.ticks * PSEUDO_CLOCK + tm.pseudo <= tm.now - tm.origin
  {
    Reachable(r, i);
  }

  /** The tick of a timer interrupt, as the handler finds it. */
  predicate Ticks(r: Run, i: nat) {
    && i < |r.events| && i < |r.states| && i < |r.clocks| && |r.clocks[i]| == 8
    && r.events[i].TimerIrq? && TickDue(Count(Enter(r.states[i], r.clocks[i]).tm, r.clocks[i]))
  }

  lemma EnterGoesOn(k: K, clk: seq<nat>)
    requires |clk| == 8
    ensures Lead(Enter(k, clk).tm) == Lead(k.tm) && Enter(k, clk).tm.start == k.tm.start && Enter(k, clk).tm.ticks == k.tm.ticks
  {}

  lemma TimerGoesOn(k: K, clk: seq<nat>)
    requires |clk| == 8 && k.tm.start <= clk[2] <= clk[3] <= clk[4]
    ensures var h := TimerInterrupt(k, clk);
      h.status == Running ==>
        && GoesOn(k.tm, h.tm) && h.tm.start <= clk[4]
        && (TickDue(Count(k.tm, clk)) ==> Lead(h.tm) == h.tm.ticks * PSEUDO_CLOCK - clk[4])
  {
    hide Notify, Count, Restart, Lead;
    var c := k.(tm := Count(k.tm, clk));
    CountGoesOn(k.tm, clk);
    CountReads(k.tm, clk);
    CountReads(c.tm, clk);
    Frames.NotifyKeeps(c, Timer, PSEUDOCLOCK_MSG, 0);
    if TickDue(c.tm) {
      RestartGoesOn(c.tm, clk);
    }
    TimerIs(k, clk);
  }

  lemma CountReads(tm: Time, clk: seq<nat>)
    requires |clk| == 8
    ensures Count(tm, clk).start == clk[3] && Restart(tm, clk).start == clk[4] && Restart(tm, clk).ticks == tm.ticks + 1
  {}

  /** The pseudo clock after a timer interrupt. */
  lemma TimerIs(k: K, clk: seq<nat>)
    requires |clk| == 8
    ensures var h, c := TimerInterrupt(k, clk), Count(k.tm, clk);
      h.status == Running ==> var m := if TickDue(c) then Restart(c, clk) else c;
        h.tm.start == m.start && h.tm.ticks == m.ticks && Lead(h.tm) == Lead(m)
  {}

  lemma SchedulerGoesOn(h: K, clk: seq<nat>)
    requires |clk| == 8 && h.tm.start <= clk[5] <= clk[6]
    ensures GoesOn(h.tm, Scheduler(h, clk).tm)
  {
    if h.status == Running && h.q.cur.Some? {
      LoadGoesOn(h.tm, h.q.cur.value, false, clk);
    } else if h.status == Running && h.q.ready != [] {
      LoadGoesOn(h.tm, h.q.ready[0], true, clk);
    }
  }

  /** One step of the pseudo clock; after a tick it has counted nothing but the time since. */
  lemma StepGoesOn(r: Run, i: nat)
    requires IsRun(r) && i < |r.events| && r.states[i + 1].status == Running
    ensures GoesOn(r.states[i].tm, r.states[i + 1].tm)
    ensures Ticks(r, i) ==> Lead(r.states[i + 1].tm) <= r.states[i + 1].tm.ticks * PSEUDO_CLOCK - r.clocks[i][4]
  {
    hide Safe, Handle, Scheduler, SsiServe, Enabled, Lead, TimerInterrupt;
    Reachable(r, i);
    RunStep(r, i);
    RunningBefore(r, i);
    var k, e, clk := r.states[i], r.events[i], r.clocks[i];
    if e.SsiServes? {
      ServeKeepsPseudo(k);
    } else {
      var k', h := Enter(k, clk), Handle(k, e, clk);
      EnterGoesOn(k, clk);
      if e.TimerIrq? {
        TimerGoesOn(k', clk);
        TimerHandled(k, clk);
      } else {
        Frames.HandleKeeps(k, e, clk);
      }
      Frames.SchedulerKeeps(h, clk);
      SchedulerGoesOn(h, clk);
      SchedulerTicks(h, clk);
    }
  }

  lemma TimerHandled(k: K, clk: seq<nat>)
    requires |clk| == 8 && Aged(k.tree) && Enabled(k, TimerIrq)
    ensures Handle(k, TimerIrq, clk) == TimerInterrupt(Enter(k, clk), clk)
  {}

  lemma SchedulerTicks(h: K, clk: seq<nat>)
    requires |clk| == 8
    ensures Scheduler(h, clk).tm.ticks == h.tm.ticks
  {}

  lemma ServeKeepsPseudo(k: K)
    requires Aged(k.tree) && Enabled(k, SsiServes)
    ensures Lead(SsiServe(k).tm) == Lead(k.tm) && SsiServe(k).tm.start == k.tm.start && SsiServe(k).tm.ticks == k.tm.ticks
  {
    hide Terminate, BrotherBorn, SonBorn, SetManager, Devices.RestIndex, Devices.OnWait, Devices.OnInterrupt, ReadLetter;
    var l := ReadLetter(k);
    if l.body.Req? && l.from.Tcb? {
      forall kind, m ensures SetManager(k, kind, l.from.t, m).tm == k.tm {
        Frames.SetManagerKeeps(k, kind, l.from.t, m);
      }
      Frames.TerminateKeeps(k, l.from.t);
      if k.q.free != [] { Frames.BirthKeeps(k, l.from.t); }
    }
  }

  /** Between any two states of a run: n pseudo-clock messages need n periods, less what had been counted before, and
      the pseudo clock never counts more than the time that passes. */
  lemma {:induction false} TickRateBetween(r: Run, i: nat, j: nat)
    requires IsRun(r) && i <= j < |r.states| && r.states[j].status == Running
    ensures var a, b := r.states[i].tm, r.states[j].tm;
      && a.start <= b.start && a.ticks <= b.ticks
      && (b.ticks - a.ticks) * PSEUDO_CLOCK + b.pseudo <= a.pseudo + b.start - a.start
    decreases j
  {
    hide Next;
    if i < j {
      RunningBefore(r, j - 1);
      TickRateBetween(r, i, j - 1);
      StepGoesOn(r, j - 1);
    }
  }

  /** Counting from its last reset, the pseudo clock and the later ticks never exceed the time that has passed. */
  lemma SinceTick(r: Run, i: nat, j: nat)
    requires IsRun(r) && i < j < |r.states| && r.states[j].status == Running && Ticks(r, i)
    ensures var b := r.states[j].tm;
      (b.ticks - r.states[i + 1].tm.ticks) * PSEUDO_CLOCK + b.pseudo <= b.start - r.clocks[i][4]
  {
    hide Next, Ticks;
    if i + 1 < j { RunningBefore(r, i + 1); }
    StepGoesOn(r, i);
    TickRateBetween(r, i + 1, j);
  }

  /** Any two ticks of a run are a period apart: from the reset after the one to the reading that finds the other due. */
  lemma TicksApart(r: Run, i: nat, j: nat)
    requires IsRun(r) && i < j && Ticks(r, i) && Ticks(r, j)
    ensures r.clocks[j][3] - r.clocks[i][4] >= PSEUDO_CLOCK
  {
    hide Next;
    RunningBefore(r, j);
    SinceTick(r, i, j);
    TickRateBetween(r, i + 1, j);
    DueAt(r, j);
  }

  /** What the timer interrupt has counted when it finds a tick due. */
  lemma DueAt(r: Run, j: nat)
    requires IsRun(r) && Ticks(r, j)
    ensures var tm := r.states[j].tm; PSEUDO_CLOCK <= tm.pseudo + r.clocks[j][3] - tm.start
  {
    hide Step, Safe;
    Reachable(r, j);
    RunStep(r, j);
    EnterGoesOn(r.states[j], r.clocks[j]);
    CountGoesOn(Enter(r.states[j], r.clocks[j]).tm, r.clocks[j]);
  }

  /** The cpu time ever charged, to the living and the dead together, is at most the time elapsed. */
  lemma CpuTimeConserved(r: Run, i: nat)
    requires IsRun(r) && i < |r.states| && r.states[i].status == Running
    ensures var tm := r.states[i].tm; Total(tm.used) <= tm.charged <= tm.now - tm.origin
  {
    Reachable(r, i);
  }

  /** Only the control block that a service allocates gets a new serial number and a new account. */
  lemma ServeUsed(k: K, t: Tid)
    requires Safe(k) && Enabled(k, SsiServes)
    ensures var k' := SsiServe(k);
      && k.tree.birth[t] <= k'.tree.birth[t]
      && (k'.tree.birth[t] == k.tree.birth[t] ==> k'.tm.used[t] == k.tm.used[t])
      && k'.tm.now == k.tm.now && k'.tm.tod == k.tm.tod
  {
    hide MailOk, SsiOk, TrapsOk, PoolOk, Partition, Reap, Discard, Devices.RestIndex, Devices.OnWait, Devices.OnInterrupt;
    assert k.tree.birth[t] < k.tree.next;
  }

  lemma StepBirth(k: K, e: Event, clk: seq<nat>, k': K, t: Tid)
    requires Safe(k) && Next(k, e, clk, k')
    ensures k.tree.birth[t] <= k'.tree.birth[t]
  {
    hide Safe, Handle, SsiServe, Enabled;
    if e.SsiServes? { ServeUsed(k, t); } else { Frames.HandleKeeps(k, e, clk); }
  }

  /** In one step a thread that is not new is charged at most the time since it was loaded. */
  lemma StepUsed(k: K, e: Event, clk: seq<nat>, k': K, t: Tid)
    requires Inv(k) && Next(k, e, clk, k') && k'.tree.birth[t] == k.tree.birth[t] && k'.status == Running
    ensures k.tm.used[t] <= k'.tm.used[t] <= k.tm.used[t] + if k.q.cur == Some(t) && !e.SsiServes? then clk[1] - k.tm.tod else 0
    ensures k.tm.now <= k'.tm.now
    ensures if e.SsiServes? then k'.tm.now == k.tm.now && k'.tm.tod == k.tm.tod && k'.q.cur == k.q.cur
            else clk[1] <= k'.tm.now && (k'.q.cur.Some? ==> k'.tm.tod == k'.tm.now)
  {
    if e.SsiServes? {
      SsiServeSafe(k);
      ServeUsed(k, t);
    } else {
      Frames.HandleKeeps(k, e, clk);
      ScheduledClock(Handle(k, e, clk), clk);
    }
  }

  lemma ScheduledClock(h: K, clk: seq<nat>)
    requires |clk| == 8
    ensures var k' := Scheduler(h, clk);
      && k'.tm.used == h.tm.used
      && (h.status == Running ==> k'.tm.now == clk[7] && (k'.q.cur.Some? ==> k'.tm.tod == k'.tm.now))
  {}

  /** The most that t can have been charged by now, counting from reading `since`. */
  ghost predicate Bracketed(k: K, t: Tid, used: nat, since: nat) {
    && since <= k.tm.now
    && (k.q.cur == Some(t) ==> since <= k.tm.tod)
    && used <= k.tm.used[t] <= used + (if k.q.cur == Some(t) then k.tm.tod else k.tm.now) - since
  }

  lemma BracketStep(k: K, e: Event, clk: seq<nat>, k': K, t: Tid, used: nat, since: nat)
    requires Inv(k) && Next(k, e, clk, k') && k'.tree.birth[t] == k.tree.birth[t] && k'.status == Running
    requires Bracketed(k, t, used, since)
    ensures Bracketed(k', t, used, since)
  {
    StepUsed(k, e, clk, k', t);
  }

  /** Between state i, where t is not running, and state j, the same incarnation of t is charged at most
      the time that passes. */
  lemma {:induction false} CpuTimeBracketed(r: Run, i: nat, j: nat, t: Tid)
    requires IsRun(r) && i <= j < |r.states| && r.states[i].q.cur != Some(t)
    requires r.states[j].status == Running && r.states[j].tree.birth[t] == r.states[i].tree.birth[t]
    ensures Bracketed(r.states[j], t, r.states[i].tm.used[t], r.states[i].tm.now)
    decreases j
  {
    if i < j {
      BirthsGrow(r, i, j - 1, t);
      BirthsGrow(r, j - 1, j, t);
      RunningBefore(r, j - 1);
      CpuTimeBracketed(r, i, j - 1, t);
      RunBracketStep(r, j - 1, t, r.states[i].tm.used[t], r.states[i].tm.now);
    }
  }

  lemma RunningBefore(r: Run, j: nat)
    requires IsRun(r) && j < |r.events|
    ensures r.states[j].status == Running
  {
    RunStep(r, j);
  }

  lemma RunBracketStep(r: Run, j: nat, t: Tid, used: nat, since: nat)
    requires IsRun(r) && j < |r.events| && Bracketed(r.states[j], t, used, since)
    requires r.states[j + 1].status == Running && r.states[j + 1].tree.birth[t] == r.states[j].tree.birth[t]
    ensures Bracketed(r.states[j + 1], t, used, since)
  {
    Reachable(r, j);
    RunStep(r, j);
    BracketStep(r.states[j], r.events[j], r.clocks[j], r.states[j + 1], t, used, since);
  }

  lemma {:induction false} BirthsGrow(r: Run, i: nat, j: nat, t: Tid)
    requires IsRun(r) && i <= j < |r.states|
    ensures r.states[i].tree.birth[t] <= r.states[j].tree.birth[t]
    decreases j
  {
    hide Next;
    if i < j {
      BirthsGrow(r, i, j - 1, t);
      BirthStep(r, j - 1, t);
    }
  }

  lemma BirthStep(r: Run, j: nat, t: Tid)
    requires IsRun(r) && j < |r.events|
    ensures r.states[j].tree.birth[t] <= r.states[j + 1].tree.birth[t]
  {
    Reachable(r, j);
    RunStep(r, j);
    StepBirth(r.states[j], r.events[j], r.clocks[j], r.states[j + 1], t);
  }

  /** The SSI is about to serve a GETCPUTIME request of t. */
  predicate AsksCpuTime(r: Run, i: nat, t: Tid) {
    && i < |r.events| && i < |r.states| && r.events[i].SsiServes?
    && var l := HeldLetter(r.states[i]);
       l.from == Tcb(t) && l.body.Req? && l.body.service == GETCPUTIME && Queued(r.states[i].q, Tcb(t))
  }

  /** The answers to two GETCPUTIME requests of the same thread differ, in 32-bit arithmetic, by at most the
      time between them: the check that the repository's own test thread p2 makes. */
  lemma CpuTimeAnswers(r: Run, i: nat, j: nat, t: Tid)
    requires IsRun(r) && i <= j && AsksCpuTime(r, i, t) && AsksCpuTime(r, j, t)
    requires r.states[j].tree.birth[t] == r.states[i].tree.birth[t]
    ensures var a, b := r.states[i + 1].ssi.outbox, r.states[j + 1].ssi.outbox;
      && |a| == 1 && a[0].to == t && a[0].body.Word? && |b| == 1 && b[0].to == t && b[0].body.Word?
      && Sub32(b[0].body.w, a[0].body.w) <= r.states[j].tm.now - r.states[i].tm.now
  {
    hide Next;
    CpuTimeAnswered(r, i, t);
    CpuTimeAnswered(r, j, t);
    CpuTimeFields(r, i, j, t);
  }

  lemma CpuTimeAnswered(r: Run, i: nat, t: Tid)
    requires IsRun(r) && AsksCpuTime(r, i, t)
    ensures r.states[i + 1].ssi.outbox == [Reply(t, Word(r.states[i].tm.cpuTime[t]))]
    ensures r.states[i].status == Running && r.states[i].q.cur != Some(t)
  {
    Reachable(r, i);
    RunStep(r, i);
    PartitionMeans(r.states[i].q);
  }

  /** The same for the accounts of one incarnation of t in two states in which it is not running. */
  lemma CpuTimeFields(r: Run, i: nat, j: nat, t: Tid)
    requires IsRun(r) && i <= j < |r.states| && r.states[i].q.cur != Some(t) && r.states[j].q.cur != Some(t)
    requires r.states[i].status == Running && r.states[j].status == Running
    requires r.states[j].tree.birth[t] == r.states[i].tree.birth[t]
    ensures Sub32(r.states[j].tm.cpuTime[t], r.states[i].tm.cpuTime[t]) <= r.states[j].tm.now - r.states[i].tm.now
  {
    Reachable(r, i);
    Reachable(r, j);
    CpuTimeBracketed(r, i, j, t);
    WrapBelow(r.states[j].tm.used[t], r.states[i].tm.used[t]);
  }
}
