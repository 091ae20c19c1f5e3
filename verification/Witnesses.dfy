/** Runs from boot that show what the code does not promise. All of them start with TEST on the CPU and the SSI
    waiting for a request, and are built from the same few steps. */
module Witnesses {
  import opened Types
  import opened Sequences
  import opened ProcessTree
  import opened ThreadQueues
  import opened Mailboxes
  import opened KernelSpec
  import opened Invariants
  import opened Runs
  import opened Accounts
  import Deadlock
  import AnswerRuns
  import Deliveries
  import DeviceRuns
  import Timing
  import Devices
  import Frames

  /** A clock that stands still. */
  function AllAt(n: nat): (clk: seq<nat>)
    ensures |clk| == 8 && forall i :: 0 <= i < 8 ==> clk[i] == n
  {
    [n, n, n, n, n, n, n, n]
  }

  function Still(k: K): (clk: seq<nat>) {
    AllAt(k.tm.now)
  }

  function Last(r: Run): (k: K)
    requires r.states != []
  {
    r.states[|r.states| - 1]
  }

  /** No message is queued anywhere and nobody is frozen. */
  ghost predicate Empty(k: K) {
    Safe(k) && k.status == Running && forall t: Tid :: k.mail.inbox[t] == [] && !k.mail.frozen[t]
  }

  /** And there are no trap managers. */
  ghost predicate Calm(k: K) {
    Empty(k) && k.traps == BootTraps()
  }

  /** Calm, with this thread on the CPU and these ready. */
  ghost predicate At(k: K, cur: Tid, ready: seq<Tid>) {
    Calm(k) && k.q.cur == Some(cur) && k.q.ready == ready
  }

  /** The SSI waits for a request. */
  predicate Listening(k: K) {
    SSI in k.q.wait && k.ssi.pc == Got && k.ssi.outbox == []
  }

  /** r goes on with e. */
  ghost predicate Continues(r: Run, s: Run, e: Event) {
    && IsRun(s) && r.states != [] && Aged(Last(r).tree) && Enabled(Last(r), e)
    && s.boot == r.boot && s.bootClk == r.bootClk
    && s.events == r.events + [e] && s.states == r.states + [Step(Last(r), e, Still(Last(r)))]
  }

  lemma Lengths(r: Run)
    requires IsRun(r)
    ensures |r.states| == |r.events| + 1 && Last(r) == r.states[|r.events|]
  {}

  lemma Go(r: Run, e: Event) returns (s: Run)
    requires IsRun(r) && Enabled(Last(r), e)
    ensures Continues(r, s, e) && Safe(Last(s))
  {
    hide Step, Enabled, Safe, Covered, Timing.TimeOk;
    assert Last(r) == r.states[|r.events|];
    ExtendedIsRun(r, e, Still(Last(r)));
    s := Extended(r, e, Still(Last(r)));
    Reachable(s, |s.events|);
  }

  /** The scheduler after a handler that left somebody to run. */
  lemma Scheduled(h: K, clk: seq<nat>)
    requires h.status == Running && |clk| == 8
    ensures var k := Scheduler(h, clk);
      && k.mail == h.mail && k.traps == h.traps && k.ssi == h.ssi && k.tree == h.tree && k.softBlock == h.softBlock
      && k.reqs == h.reqs && k.threadCount == h.threadCount && k.written == h.written
      && k.q.wait == h.q.wait && k.q.free == h.q.free && k.tm.now == clk[7]
      && (h.q.cur.Some? ==> k.q == h.q && k.status == Running)
      && (h.q.cur.None? && h.q.ready != [] ==>
            k.q.cur == Some(h.q.ready[0]) && k.q.ready == h.q.ready[1..] && k.status == Running)
  {}

  lemma Entered(k: K)
    ensures var k' := Enter(k, Still(k));
      && k'.q == k.q && k'.mail == k.mail && k'.traps == k.traps && k'.ssi == k.ssi && k'.tree == k.tree
      && k'.softBlock == k.softBlock && k'.reqs == k.reqs && k'.status == k.status && k'.tm.now == k.tm.now && k'.threadCount == k.threadCount
      && k'.written == k.written
  {}

  /** What is the same before and after: everything outside the queues and the mail. */
  predicate SameOutside(k: K, k': K) {
    && k'.traps == k.traps && k'.ssi == k.ssi && k'.tree == k.tree && k'.q.free == k.q.free && k'.tm.now == k.tm.now
    && k'.reqs == k.reqs && k'.threadCount == k.threadCount && k'.written == k.written
  }

  /** Waking t: membership in wait_queue. */
  lemma Woken(q: Queues, t: Tid)
    requires Partition(q) && t in q.wait
    ensures Wake(q, t).ready == q.ready + [t] && Wake(q, t).free == q.free && Wake(q, t).cur == q.cur
    ensures forall x: Tid :: x in Wake(q, t).wait <==> x in q.wait && x != t
  {
    PartitionMeans(q);
    RemoveIsMinus(q.wait, t);
  }

  // ----- the steps -----

  /** The running thread sends a letter to a thread that waits for it. */
  lemma HandStep(k: K, to: Addr, body: Payload, y: Tid)
    requires Calm(k) && k.q.cur.Some? && k.q.cur.value != SSI && Target(to) == Tcb(y) && to != Tcb(SSI)
    requires y in k.q.wait && (k.mail.waitingFor[y] == Tcb(k.q.cur.value) || k.mail.waitingFor[y] == Null)
    requires !body.Irq? && (to == Magic ==> body.Req? && body.service != PSEUDOCLOCK_MSG && body.service != INTERRUPT_MSG)
    ensures Aged(k.tree) && Enabled(k, SendCall(to, body))
    ensures var k' := Step(k, SendCall(to, body), Still(k));
      && SameOutside(k.(reqs := k.reqs + if to == Magic then 1 else 0), k') && k'.status == Running
      && k'.mail.v0[y] == Tcb(k.q.cur.value) && k'.mail.val == k.mail.val[y := body]
      && (forall x: Tid :: x != y && x != k.q.cur.value ==> k'.mail.v0[x] == k.mail.v0[x])
      && (forall x: Tid :: k'.mail.inbox[x] == [] && !k'.mail.frozen[x])
      && (forall x: Tid :: x != y ==> k'.mail.waitingFor[x] == k.mail.waitingFor[x])
      && k'.q.cur == k.q.cur && k'.q.ready == k.q.ready + [y]
      && (forall x: Tid :: x in k'.q.wait <==> x in k.q.wait && x != y)
      && k'.softBlock == if to == Magic then Add32(k.softBlock, 1) else k.softBlock
  {
    hide Scheduler, Partition, MailOk, PoolOk, TreeOk, LetterOk, Wake;
    SafeAged(k);
    Entered(k);
    Woken(k.q, y);
    PartitionMeans(k.q);
    Scheduled(Handle(k, SendCall(to, body), Still(k)), Still(k));
  }

  /** The running thread waits, and the first ready thread runs. */
  lemma WaitStep(k: K, from: Addr)
    requires Calm(k) && k.q.cur.Some? && k.q.cur.value != SSI && from != Tcb(SSI) && k.q.ready != []
    ensures Aged(k.tree) && Enabled(k, RecvCall(from))
    ensures var k' := Step(k, RecvCall(from), Still(k));
      && SameOutside(k, k') && k'.status == Running && k'.softBlock == k.softBlock
      && (forall x: Tid :: k'.mail.inbox[x] == [] && !k'.mail.frozen[x])
      && k'.mail.waitingFor == k.mail.waitingFor[k.q.cur.value := from]
      && (forall x: Tid :: x != k.q.cur.value ==> k'.mail.v0[x] == k.mail.v0[x]) && k'.mail.val == k.mail.val
      && k'.q.cur == Some(k.q.ready[0]) && k'.q.ready == k.q.ready[1..] && k'.q.wait == k.q.wait + [k.q.cur.value]
  {
    hide Scheduler, Partition, MailOk, PoolOk, TreeOk, LetterOk;
    SafeAged(k);
    Entered(k);
    Scheduled(Handle(k, RecvCall(from), Still(k)), Still(k));
  }

  /** The SSI waits for the next request. */
  lemma ListenStep(k: K)
    requires Empty(k) && k.q.cur == Some(SSI) && k.ssi.pc == AtRecv && k.q.ready != []
    ensures Aged(k.tree) && Enabled(k, SsiCalls)
    ensures var k' := Step(k, SsiCalls, Still(k));
      && SameOutside(k.(ssi := k.ssi.(pc := Got)), k') && k'.status == Running && k'.softBlock == k.softBlock
      && (forall x: Tid :: k'.mail.inbox[x] == [] && !k'.mail.frozen[x])
      && k'.mail.waitingFor == k.mail.waitingFor[SSI := Null]
      && k'.q.cur == Some(k.q.ready[0]) && k'.q.ready == k.q.ready[1..] && k'.q.wait == k.q.wait + [SSI]
      && k'.mail.log == k.mail.log
  {
    hide Scheduler, Partition, MailOk, PoolOk, TreeOk, LetterOk;
    SafeAged(k);
    Entered(k);
    Scheduled(Handle(k, SsiCalls, Still(k)), Still(k));
  }

  /** The SSI sends its one answer to a thread that waits for it. */
  lemma ReplyStep(k: K, y: Tid, body: Payload)
    requires Empty(k) && k.q.cur == Some(SSI) && k.ssi.pc == Sending && k.ssi.outbox == [Reply(y, body)]
    requires y in k.q.wait && (k.mail.waitingFor[y] == Magic || k.mail.waitingFor[y] == Null)
    ensures Aged(k.tree) && Enabled(k, SsiCalls) && Wakes(k, Magic, y)
    ensures var k' := Step(k, SsiCalls, Still(k));
      && SameOutside(k.(ssi := k.ssi.(pc := AtRecv, outbox := [])), k') && k'.status == Running && k'.softBlock == k.softBlock
      && (forall x: Tid :: k'.mail.inbox[x] == [] && !k'.mail.frozen[x])
      && (forall x: Tid :: x != y ==> k'.mail.waitingFor[x] == k.mail.waitingFor[x])
      && k'.q.cur == k.q.cur && k'.q.ready == k.q.ready + [y]
      && (forall x: Tid :: x in k'.q.wait <==> x in k.q.wait && x != y)
      && k'.mail.log == k.mail.log[y := k.mail.log[y] + [Letter(Magic, body)]]
  {
    hide Scheduler, Partition, MailOk, PoolOk, TreeOk, LetterOk, Wake;
    SafeAged(k);
    Entered(k);
    Woken(k.q, y);
    PartitionMeans(k.q);
    assert k.ssi.outbox[1..] == [];
    Scheduled(Handle(k, SsiCalls, Still(k)), Still(k));
  }

  /** A childless thread without a trap manager dies of a trap. */
  lemma DieStep(k: K)
    requires Calm(k) && k.q.cur.Some? && k.q.cur.value != SSI && k.tree.kids[k.q.cur.value] == [] && k.q.ready != []
    ensures Aged(k.tree) && Enabled(k, TrapRaised(PgmTrap, 0))
    ensures var k' := Step(k, TrapRaised(PgmTrap, 0), Still(k)); var c := k.q.cur.value;
      && k'.traps == k.traps && k'.ssi == k.ssi && k'.tm.now == k.tm.now && k'.status == Running && k'.softBlock == k.softBlock
      && (forall x: Tid :: k'.mail.inbox[x] == []) && k'.mail.frozen == k.mail.frozen
      && k'.mail.waitingFor == k.mail.waitingFor
      && k'.q.cur == Some(k.q.ready[0]) && k'.q.ready == k.q.ready[1..] && k'.q.wait == k.q.wait && k'.q.free == k.q.free + [c]
      && k'.tree.kin == k.tree.kin && k'.tree.birth == k.tree.birth && k'.tree.next == k.tree.next
      && k'.tree.parent[c] == None && (forall x: Tid :: x != c ==> k'.tree.parent[x] == k.tree.parent[x])
      && (forall x: Tid :: k.tree.kids[x] == [] ==> k'.tree.kids[x] == [])
  {
    hide Scheduler, Partition, MailOk, PoolOk, LetterOk, Kill;
    SafeAged(k);
    var c := k.q.cur.value;
    var k' := Enter(k, Still(k));
    Entered(k);
    LeafOrder(k'.tree, c);
    OneDies(k', c);
    Scheduled(Handle(k, TrapRaised(PgmTrap, 0), Still(k)), Still(k));
  }

  /** The death of the running thread, when it has no children and nobody is a trap manager. */
  lemma OneDies(k: K, c: Tid)
    requires Partition(k.q) && k.q.cur == Some(c) && k.traps == BootTraps() && forall x: Tid :: k.mail.inbox[x] == []
    ensures var d := Kill(k, [c]);
      && d.q == k.q.(cur := None, free := k.q.free + [c]) && d.traps == k.traps && d.ssi == k.ssi && d.tm == k.tm
      && d.softBlock == k.softBlock && d.status == k.status
      && d.mail.inbox == k.mail.inbox && d.mail.frozen == k.mail.frozen && d.mail.waitingFor == k.mail.waitingFor
      && d.tree.kin == k.tree.kin && d.tree.birth == k.tree.birth && d.tree.next == k.tree.next
      && d.tree.parent[c] == None && (forall x: Tid :: x != c ==> d.tree.parent[x] == k.tree.parent[x])
      && (forall x: Tid :: k.tree.kids[x] == [] ==> d.tree.kids[x] == [])
  {
    hide Partition, Reap, Prune, Discard, Dismiss;
    assert Elems([c]) == {c};
    OneReaped(k.q, c);
    OnePruned(k.tree, c);
    assert Emptied(k.mail.inbox, {c}) == k.mail.inbox;
    OneDiscarded(k.mail, c);
    OneDismissed(k.traps.managers, c);
  }

  lemma OneReaped(q: Queues, c: Tid)
    requires Partition(q) && q.cur == Some(c)
    ensures Reap(q, [c]) == q.(cur := None, free := q.free + [c])
  {
    PartitionMeans(q);
    assert Elems([c]) == {c};
    MinusNone(q.ready, {c});
    MinusNone(q.wait, {c});
  }

  lemma OnePruned(tr: Tree, c: Tid)
    ensures var d := Prune(tr, {c});
      && d.kin == tr.kin && d.birth == tr.birth && d.next == tr.next
      && d.parent[c] == None && (forall x: Tid :: x != c ==> d.parent[x] == tr.parent[x])
      && (forall x: Tid :: tr.kids[x] == [] ==> d.kids[x] == [])
  {
    forall x: Tid | tr.kids[x] == [] ensures Minus(tr.kids[x], {c}) == [] {}
  }

  lemma OneDiscarded(m: Mail, c: Tid)
    requires m.inbox[c] == []
    ensures var d := Discard(m, [c]); d.inbox == m.inbox && d.frozen == m.frozen && d.waitingFor == m.waitingFor
  {
    assert Elems([c]) == {c};
    assert Emptied(m.inbox, {c}) == m.inbox;
  }

  lemma OneDismissed(ms: seq<Addr>, c: Tid)
    requires Tcb(c) !in ms
    ensures Dismiss(ms, [c]) == ms
  {
    assert [c][..0] == [];
    assert Dismiss(ms, [c]) == DismissOne(Dismiss(ms, []), c);
  }

  /** The SSI creates a thread for TEST. */
  lemma CreateStep(k: K, service: nat)
    requires Calm(k) && k.q.cur == Some(SSI) && k.ssi.pc == Got && k.q.ready == [] && k.q.free != [] && TEST in k.q.wait
    requires HeldLetter(k) == Letter(Tcb(TEST), Req(service, Null))
    requires service == CREATESON || (service == CREATEBROTHER && k.tree.parent[TEST].None? && BrotherAllowed(k, TEST))
    ensures Aged(k.tree) && Enabled(k, SsiServes)
    ensures var k', n := Step(k, SsiServes, Still(k)), k.q.free[0];
      && k'.traps == k.traps && k'.tm.now == k.tm.now && k'.status == Running && k'.softBlock == k.softBlock
      && (forall x: Tid :: k'.mail.inbox[x] == [] && !k'.mail.frozen[x])
      && (forall x: Tid :: x != n ==> k'.mail.waitingFor[x] == k.mail.waitingFor[x])
      && k'.q == Queues([n], k.q.wait, k.q.free[1..], Some(SSI))
      && k'.ssi == k.ssi.(pc := Sending, outbox := [Reply(TEST, Ptr(Tcb(n)))])
      && Planted(k.tree, k'.tree, n, service)
  {
    hide Partition, MailOk, PoolOk, LetterOk;
    SafeAged(k);
    var n := k.q.free[0];
    assert k.traps.sys[n := Null] == k.traps.sys && k.traps.pgm[n := Null] == k.traps.pgm && k.traps.tlb[n := Null] == k.traps.tlb;
    PartitionMeans(k.q);
    assert n in k.q.free;
  }

  /** The place of the new thread n: a childless son, or a parentless brother, of TEST. */
  predicate Planted(tr: Tree, tr': Tree, n: Tid, service: nat) {
    && tr'.kids[n] == [] && tr'.birth == tr.birth[n := tr.next] && tr'.next == tr.next + 1
    && (if service == CREATESON
        then tr'.parent == tr.parent[n := Some(TEST)] && tr'.kin == tr.kin[n := n]
        else tr'.parent == tr.parent[n := None] && tr'.kin[TEST] == n)
  }

  // ----- longer stretches -----

  /** TEST runs, nobody else is ready, and the SSI listens. */
  ghost predicate Canon(k: K) {
    At(k, TEST, []) && Listening(k)
  }

  /** s is r and more. */
  predicate Extends(r: Run, s: Run) {
    && |r.states| <= |s.states| && |r.events| <= |s.events|
    && s.states[..|r.states|] == r.states && s.events[..|r.events|] == r.events
  }

  /** The clock is read as 0 by `main`, and as n by everybody after it. */
  lemma FromBoot(n: nat) returns (r: Run)
    requires n < U32
    ensures IsRun(r) && Canon(Last(r)) && |r.events| == 1
    ensures var k := Last(r);
      && k.q.free == BootQueues().free && k.tree == BootTree() && k.ssi.dev == Devices.AllIdle()
      && k.softBlock == 0 && k.reqs == 0 && k.threadCount == 2 && k.written == []
      && k.tm.now == n && k.tm.tod == n && k.tm.start == n && k.tm.pseudo == n && k.tm.cpuSlice[TEST] == 0
  {
    hide Scheduler, Step, Safe, Enabled;
    var b := Booted(0, AllAt(n));
    BootState(n);
    ListenStep(Last(b));
    r := Go(b, SsiCalls);
    BootClock(n);
  }

  lemma BootState(n: nat)
    ensures IsRun(Booted(0, AllAt(n)))
    ensures var k := Last(Booted(0, AllAt(n)));
      && At(k, SSI, [TEST]) && k.q.wait == [] && k.q.free == BootQueues().free && k.ssi == BootSsi() && k.tree == BootTree()
      && k.softBlock == 0 && k.reqs == 0 && k.threadCount == 2 && k.written == []
  {
    BootInv(0, AllAt(n));
    Scheduled(Boot(0), AllAt(n));
  }

  lemma BootClock(n: nat)
    requires n < U32
    ensures var k := Step(Last(Booted(0, AllAt(n))), SsiCalls, AllAt(n));
      k.tm.tod == n && k.tm.start == n && k.tm.pseudo == n && k.tm.cpuSlice[TEST] == 0
    ensures Last(Booted(0, AllAt(n))).tm.now == n
  {
    hide Safe, Scheduler, Handle, Boot;
    BootState(n);
    var k := Last(Booted(0, AllAt(n)));
    BootNoTime();
    Loads(Boot(0), n);
    assert Still(k) == AllAt(n);
    EnterNoTime(k);
    ListenStep(k);
    Frames.HandleKeeps(k, SsiCalls, AllAt(n));
    Frames.SchedulerKeeps(Handle(k, SsiCalls, AllAt(n)), AllAt(n));
    Loads(Handle(k, SsiCalls, AllAt(n)), n);
  }

  lemma BootNoTime()
    ensures var h := Boot(0); h.status == Running && h.tm.start == 0 && h.tm.pseudo == 0 && h.tm.cpuSlice[TEST] == 0
  {}

  lemma EnterNoTime(k: K)
    requires k.q.cur == Some(SSI)
    ensures var h := Enter(k, Still(k));
      h.tm.start == k.tm.start && h.tm.pseudo == k.tm.pseudo && h.tm.cpuSlice[TEST] == k.tm.cpuSlice[TEST]
  {}

  /** Somebody is loaded at time n. */
  lemma Loads(h: K, n: nat)
    requires n < U32 && h.tm.cpuSlice[TEST] == 0
    requires (h.tm.start == 0 && h.tm.pseudo == 0) || (h.tm.start == n && h.tm.pseudo == n)
    ensures var k := Scheduler(h, AllAt(n));
      h.status == Running && k.q.cur.Some? ==>
        k.tm.now == n && k.tm.tod == n && k.tm.start == n && k.tm.pseudo == n && k.tm.cpuSlice[TEST] == 0
  {}

  /** TEST sends a request to the SSI and waits for the answer: the SSI is about to serve it. */
  lemma Ask(r: Run, service: nat, arg: Addr) returns (s: Run)
    requires IsRun(r) && Canon(Last(r)) && service != PSEUDOCLOCK_MSG && service != INTERRUPT_MSG
    ensures IsRun(s) && Extends(r, s) && |s.events| == |r.events| + 2
    ensures var k, k' := Last(r), Last(s);
      && At(k', SSI, []) && k'.ssi.pc == Got && k'.ssi == k.ssi && HeldLetter(k') == Letter(Tcb(TEST), Req(service, arg))
      && TEST in k'.q.wait && k'.mail.waitingFor[TEST] == Magic
      && k'.tree == k.tree && k'.q.free == k.q.free && k'.softBlock == Add32(k.softBlock, 1)
      && k'.reqs == k.reqs + 1 && k'.threadCount == k.threadCount
      && (forall x: Tid :: x in k.q.wait && x != SSI ==> x in k'.q.wait && k'.mail.waitingFor[x] == k.mail.waitingFor[x])
  {
    hide Step, Safe, Enabled;
    var k := Last(r);
    SsiListens(k);
    HandStep(k, Magic, Req(service, arg), SSI);
    var p := Go(r, SendCall(Magic, Req(service, arg)));
    WaitStep(Last(p), Magic);
    s := Go(p, RecvCall(Magic));
  }

  lemma SsiListens(k: K)
    requires Safe(k) && SSI in k.q.wait && k.q.cur == Some(TEST)
    ensures k.mail.waitingFor[SSI] == Null && TEST !in k.q.wait
  {
    PartitionMeans(k.q);
  }

  /** TEST creates a thread, which runs next, with TEST behind it. */
  lemma Create(r: Run, service: nat) returns (s: Run)
    requires IsRun(r) && Canon(Last(r)) && Last(r).q.free != []
    requires service == CREATESON || (service == CREATEBROTHER && Last(r).tree.parent[TEST].None? && BrotherAllowed(Last(r), TEST))
    ensures IsRun(s) && Extends(r, s)
    ensures var k, k', n := Last(r), Last(s), Last(r).q.free[0];
      && At(k', n, [TEST]) && Listening(k') && k'.ssi.dev == k.ssi.dev && n != SSI && n != TEST
      && k'.q.free == k.q.free[1..] && Planted(k.tree, k'.tree, n, service)
      && (forall x: Tid :: x in k.q.wait && x != SSI ==> x in k'.q.wait && k'.mail.waitingFor[x] == k.mail.waitingFor[x])
  {
    hide Step, Safe, Enabled, Planted;
    var k, n := Last(r), Last(r).q.free[0];
    NewIsNeither(k);
    var p := Ask(r, service, Null);
    CreateStep(Last(p), service);
    p := Go(p, SsiServes);
    ReplyStep(Last(p), TEST, Ptr(Tcb(n)));
    p := Go(p, SsiCalls);
    ListenStep(Last(p));
    s := Go(p, SsiCalls);
  }

  lemma NewIsNeither(k: K)
    requires Safe(k) && k.q.free != [] && k.q.cur == Some(TEST)
    ensures k.q.free[0] != SSI && k.q.free[0] != TEST
    ensures forall x: Tid :: x in k.q.wait ==> x != k.q.free[0] && x != TEST
  {
    PartitionMeans(k.q);
    assert k.q.free[0] in k.q.free;
  }

  /** TEST creates a son, which waits for any message. */
  lemma Son(r: Run) returns (s: Run)
    requires IsRun(r) && Canon(Last(r)) && Last(r).q.free != []
    ensures IsRun(s) && Extends(r, s)
    ensures var k, k', n := Last(r), Last(s), Last(r).q.free[0];
      && Canon(k') && k'.ssi.dev == k.ssi.dev && k'.q.free == k.q.free[1..] && Planted(k.tree, k'.tree, n, CREATESON)
      && n in k'.q.wait && k'.mail.waitingFor[n] == Null
      && (forall x: Tid :: x in k.q.wait && x != SSI ==> x in k'.q.wait && k'.mail.waitingFor[x] == k.mail.waitingFor[x])
  {
    hide Step, Safe, Enabled, Planted;
    NewIsNeither(Last(r));
    var p := Create(r, CREATESON);
    WaitStep(Last(p), Null);
    s := Go(p, RecvCall(Null));
  }

  /** TEST creates a thread, which dies at once: its control block goes to the end of the free list. */
  lemma Stillborn(r: Run, service: nat) returns (s: Run)
    requires IsRun(r) && Canon(Last(r)) && Last(r).q.free != []
    requires service == CREATESON || (service == CREATEBROTHER && Last(r).tree.parent[TEST].None? && BrotherAllowed(Last(r), TEST))
    ensures IsRun(s) && Extends(r, s)
    ensures var k, k', n := Last(r), Last(s), Last(r).q.free[0];
      && Canon(k') && k'.ssi.dev == k.ssi.dev && k'.q.free == k.q.free[1..] + [n]
      && (forall x: Tid :: x != n ==> k'.tree.parent[x] == k.tree.parent[x])
      && k'.tree.kin[TEST] == if service == CREATESON then k.tree.kin[TEST] else n
  {
    hide Step, Safe, Enabled;
    NewIsNeither(Last(r));
    var p := Create(r, service);
    DieStep(Last(p));
    s := Go(p, TrapRaised(PgmTrap, 0));
  }

  /** TEST creates m sons, which use up the first m free control blocks. */
  lemma {:induction false} Sons(r: Run, m: nat) returns (s: Run)
    requires IsRun(r) && Canon(Last(r)) && m <= |Last(r).q.free|
    ensures IsRun(s) && Extends(r, s)
    ensures var k, k' := Last(r), Last(s);
      && Canon(k') && k'.ssi.dev == k.ssi.dev && k'.q.free == k.q.free[m..] && k'.tree.kin[TEST] == k.tree.kin[TEST]
      && k.tree.next <= k'.tree.next && k'.tree.parent[TEST] == k.tree.parent[TEST]
      && (forall i :: 0 <= i < m ==> IsSon(k', k.q.free[i], k.tree.next))
      && (forall x: Tid, t0 :: x in k.q.wait && x != SSI && IsSon(k, x, t0) ==> IsSon(k', x, t0))
    decreases m
  {
    hide Step, Safe, Enabled, Planted;
    if m == 0 {
      s := r;
    } else {
      var k, n := Last(r), Last(r).q.free[0];
      NewIsNeither(k);
      var p := Son(r);
      PlantedSon(k, Last(p), n);
      s := Sons(p, m - 1);
      forall i | 0 <= i < m ensures IsSon(Last(s), k.q.free[i], k.tree.next) {
        if i > 0 { assert k.q.free[i] == k.q.free[1..][i - 1]; }
      }
    }
  }

  /** x is a son of TEST, born not before serial t0, that waits for any message. */
  ghost predicate IsSon(k: K, x: Tid, t0: nat) {
    && x in k.q.wait && k.mail.waitingFor[x] == Null && k.tree.parent[x] == Some(TEST) && k.tree.birth[x] >= t0
  }

  lemma PlantedSon(k: K, k': K, n: Tid)
    requires Planted(k.tree, k'.tree, n, CREATESON) && n != TEST
    requires n in k'.q.wait && k'.mail.waitingFor[n] == Null && forall x: Tid :: x in k.q.wait ==> x != n
    requires forall x: Tid :: x in k.q.wait && x != SSI ==> x in k'.q.wait && k'.mail.waitingFor[x] == k.mail.waitingFor[x]
    ensures IsSon(k', n, k.tree.next) && k'.tree.kin[TEST] == k.tree.kin[TEST] && k'.tree.next == k.tree.next + 1
    ensures k'.tree.parent[TEST] == k.tree.parent[TEST]
    ensures forall x: Tid, t0 :: x in k.q.wait && x != SSI && IsSon(k, x, t0) ==> IsSon(k', x, t0)
  {}

  // ----- CREATEBROTHER -----

  /** A run that ends with the SSI about to serve a CREATEBROTHER of TEST that destroys a list: the brother it had died,
      its control block has been used again for a son, and `t_sib.prev` of TEST still leads there. A control
      block is free, and nothing else is wrong. */
  lemma StaleBrotherRun() returns (r: Run)
    ensures IsRun(r)
    ensures var k := Last(r);
      && k.status == Running && k.q.cur == Some(SSI) && k.ssi.pc == Got && k.q.free != []
      && HeldLetter(k) == Letter(Tcb(TEST), Req(CREATEBROTHER, Null)) && Queued(k.q, Tcb(TEST))
      && k.tree.parent[TEST].None? && !BrotherAllowed(k, TEST)
  {
    hide Step, Safe, Enabled, Planted;
    r := FromBoot(0);
    var free := BootQueues().free;
    r := Stillborn(r, CREATEBROTHER);
    r := Stillborn(r, CREATESON);
    assert Last(r).q.free == free[2..] + [free[0]] + [free[1]];
    assert Last(r).q.free[16] == free[0] == 2;
    r := Sons(r, 17);
    assert Last(r).tree.kin[TEST] == 2 && Last(r).tree.parent[2] == Some(TEST);
    r := Ask(r, CREATEBROTHER, Null);
  }

  // ----- TRAPCONTINUE for a thread that has not trapped -----

  /** The SSI makes TEST its own manager for program traps. */
  lemma ManagerStep(k: K)
    requires Calm(k) && k.q.cur == Some(SSI) && k.ssi.pc == Got && TEST in k.q.wait
    requires HeldLetter(k) == Letter(Tcb(TEST), Req(SPECPRGMGR, Tcb(TEST)))
    ensures Aged(k.tree) && Enabled(k, SsiServes)
    ensures var k' := Step(k, SsiServes, Still(k));
      && k'.q == k.q && k'.mail == k.mail && k'.tree == k.tree && k'.status == Running && k'.tm == k.tm
      && IsManager(k', TEST) && k'.ssi == k.ssi.(pc := Sending, outbox := [Reply(TEST, Word(0))])
  {
    hide Partition, MailOk, PoolOk, LetterOk;
    SafeAged(k);
    PartitionMeans(k.q);
    assert Enlist(k.traps.managers, Tcb(TEST))[0] == Tcb(TEST);
  }

  /** Thread 2, a son of TEST, waits for TEST, which asks the SSI for itself as manager. */
  lemma SonWaitsForTest() returns (r: Run)
    ensures IsRun(r)
    ensures var k, n: Tid := Last(r), 2;
      && At(k, SSI, []) && k.ssi.pc == Got && HeldLetter(k) == Letter(Tcb(TEST), Req(SPECPRGMGR, Tcb(TEST)))
      && TEST in k.q.wait && k.mail.waitingFor[TEST] == Magic && n in k.q.wait && k.mail.waitingFor[n] == Tcb(TEST)
  {
    hide Step, Safe, Enabled, Planted;
    r := FromBoot(0);
    NewIsNeither(Last(r));
    r := Create(r, CREATESON);
    WaitStep(Last(r), Tcb(TEST));
    r := Go(r, RecvCall(Tcb(TEST)));
    r := Ask(r, SPECPRGMGR, Tcb(TEST));
  }

  /** A run in which MsgRecv returns without a message: thread 2 waits for one from TEST and has never trapped; TEST, which is
      a trap manager, says TRAPCONTINUE to it. */
  lemma LetGo() returns (r: Run)
    ensures IsRun(r) && |r.events| > 0
    ensures var k, k', n: Tid := r.states[|r.events| - 1], Last(r), 2;
      && Deliveries.Blocked(k, n) && k.mail.waitingFor[n] == Tcb(TEST)
      && k'.status == Running && n in k'.q.ready && k'.mail.got[n] == k.mail.got[n] && k'.mail.inbox[n] == []
  {
    hide Step, Safe, Enabled, Planted;
    r := SonWaitsForTest();
    ManagerStep(Last(r));
    r := Go(r, SsiServes);
    ReplyStep(Last(r), TEST, Word(0));
    r := Go(r, SsiCalls);
    ListenStep(Last(r));
    r := Go(r, SsiCalls);
    MayContinue(Last(r), 2);
    r := Go(r, SendCall(Tcb(2), TRAPCONTINUE));
    Lengths(r);
    Deliveries.LetGoWithNothing(r, |r.events| - 1, 2);
  }

  /** The kernel takes TRAPCONTINUE from a manager for any thread that waits for it. */
  lemma MayContinue(k: K, n: Tid)
    requires Empty(k) && k.q.cur == Some(TEST) && IsManager(k, TEST) && n in k.q.wait && k.mail.waitingFor[n] == Tcb(TEST) && n != SSI
    ensures Aged(k.tree) && Enabled(k, SendCall(Tcb(n), TRAPCONTINUE)) && Step(k, SendCall(Tcb(n), TRAPCONTINUE), Still(k)).status == Running
  {
    hide Safe;
    SafeAged(k);
  }

  // ----- the deadlock that goes undetected -----

  /** The SSI answers GETCPUTIME. */
  lemma CpuTimeStep(k: K)
    requires Calm(k) && k.q.cur == Some(SSI) && k.ssi.pc == Got && TEST in k.q.wait
    requires HeldLetter(k) == Letter(Tcb(TEST), Req(GETCPUTIME, Null))
    ensures Aged(k.tree) && Enabled(k, SsiServes)
    ensures Step(k, SsiServes, Still(k)) == k.(ssi := k.ssi.(pc := Sending, outbox := [Reply(TEST, Word(k.tm.cpuTime[TEST]))]))
  {
    hide Partition, MailOk, PoolOk;
    SafeAged(k);
  }

  /** The running thread waits and nobody is ready: the scheduler waits too, because the counter is not 0. */
  lemma IdleStep(k: K)
    requires At(k, TEST, []) && k.threadCount > 1 && k.softBlock > 0
    ensures Aged(k.tree) && Enabled(k, RecvCall(Null))
    ensures var k' := Step(k, RecvCall(Null), Still(k));
      && k'.status == Running && k'.softBlock == k.softBlock && k'.threadCount == k.threadCount && k'.reqs == k.reqs
      && k'.q.cur == None && k'.q.ready == []
  {
    hide Partition, MailOk, PoolOk, TreeOk, LetterOk;
    SafeAged(k);
    Entered(k);
  }

  /** A run that reaches a deadlock that the scheduler lets pass: TEST makes one SSIRequest, gets its answer, and then waits
      for a message that nobody can send. Both threads wait, no request is open, and
      `soft_block_count` is 1. (By `Deadlock.DeadlockIsForever` nothing changes that.) */
  lemma UndetectedDeadlock() returns (r: Run)
    ensures IsRun(r)
    ensures var k := Last(r);
      && Deadlock.Deadlocked(k) && Deadlock.Stuck(k) && k.threadCount == 2 && k.softBlock == 1 && k.status == Running
  {
    hide Step, Safe, Enabled, Outstanding;
    r := FromBoot(0);
    r := Ask(r, GETCPUTIME, Null);
    CpuTimeStep(Last(r));
    r := Go(r, SsiServes);
    ReplyStep(Last(r), TEST, Word(Last(r).tm.cpuTime[TEST]));
    ghost var i := |r.events|;
    ghost var before := r;
    r := Go(r, SsiCalls);
    ListenStep(Last(r));
    r := Go(r, SsiCalls);
    IdleStep(Last(r));
    r := Go(r, RecvCall(Null));
    assert r.states[i] == Last(before) && r.events[i] == SsiCalls;
    OneLost(r, i);
  }

  /** The answer that was handed over is the one request that the counter still counts. */
  lemma OneLost(r: Run, i: nat)
    requires IsRun(r) && i < |r.events| && r.events[i].SsiCalls? && r.states[i].ssi.pc == Sending && r.states[i].ssi.outbox != []
    requires Wakes(r.states[i], Magic, r.states[i].ssi.outbox[0].to)
    requires Last(r).status == Running && Last(r).reqs < U32 && Last(r).softBlock == 1
    ensures Outstanding(Last(r)) == 0
  {
    hide Next, Outstanding, Lost;
    Deadlock.SoftBlockExact(r, |r.events|);
    Deadlock.HandOverIsLost(r, i);
    Deadlock.LeaksGrow(r, i);
    Deadlock.LeaksStay(r, i + 1, |r.events|);
  }

  // ----- the slice that is overrun -----

  /** A run in which TEST makes a system call after 6000 microseconds: the timer is then set to the end of the pseudo-clock
      period, 94000 microseconds away, although the slice of 5000 is over. */
  lemma SliceOvershoot() returns (r: Run)
    ensures IsRun(r)
    ensures var k := Last(r);
      k.status == Running && k.q.cur == Some(TEST) && k.tm.cpuSlice[TEST] == 6000 && k.tm.pseudo == 6000 && k.tm.timer == 94000
  {
    hide Step, Safe, Enabled;
    var b := FromBoot(0);
    var k := Last(b);
    LateCall(k);
    assert k == b.states[|b.events|];
    ExtendedIsRun(b, SendCall(Null, Word(0)), AllAt(6000));
    r := Extended(b, SendCall(Null, Word(0)), AllAt(6000));
  }

  lemma LateCall(k: K)
    requires At(k, TEST, []) && k.tm.now == 0 && k.tm.tod == 0 && k.tm.start == 0 && k.tm.pseudo == 0 && k.tm.cpuSlice[TEST] == 0
    ensures Aged(k.tree) && Enabled(k, SendCall(Null, Word(0)))
    ensures var k' := Step(k, SendCall(Null, Word(0)), AllAt(6000));
      k'.status == Running && k'.q.cur == Some(TEST) && k'.tm.cpuSlice[TEST] == 6000 && k'.tm.pseudo == 6000 && k'.tm.timer == 94000
  {
    hide Partition, MailOk, PoolOk, TreeOk, LetterOk;
    SafeAged(k);
  }

  // ----- the answer that goes astray -----

  const DISK: nat := Devices.DEV_REGS_START

  /** The SSI keeps a waiter for the first disk. */
  lemma WaitIoStep(k: K, c: Tid)
    requires Calm(k) && k.q.cur == Some(SSI) && k.ssi.pc == Got && k.ssi.outbox == [] && Queued(k.q, Tcb(c)) && c != SSI
    requires HeldLetter(k) == Letter(Tcb(c), Req(WAITFORIO, Raw(DISK))) && k.ssi.dev[0] == Device.Idle
    ensures Aged(k.tree) && Enabled(k, SsiServes) && DeviceRuns.DevEventOf(k, 0) == Some(Devices.Wait(c))
    ensures Step(k, SsiServes, Still(k)) == k.(ssi := k.ssi.(pc := AtRecv, dev := k.ssi.dev[0 := Waiter(c)]))
  {
    hide Partition, MailOk, PoolOk;
    SafeAged(k);
  }

  /** The first disk interrupts while the SSI listens. */
  lemma DiskStep(k: K)
    requires Calm(k) && k.q.cur == Some(TEST) && k.q.ready == [] && Listening(k)
    ensures Aged(k.tree) && Enabled(k, DeviceIrq(3, 0, 1))
    ensures var k' := Step(k, DeviceIrq(3, 0, 1), Still(k));
      && SameOutside(k.(written := k'.written), k') && k'.status == Running
      && k'.written == k.written + [Some(HeldLetter(k'))]
      && HeldLetter(k') == Letter(Raw(DISK), Irq(INTERRUPT_MSG, 1, |k.written| % SLOTS))
      && (forall x: Tid :: k'.mail.inbox[x] == [] && !k'.mail.frozen[x])
      && (forall x: Tid :: x != SSI ==> k'.mail.waitingFor[x] == k.mail.waitingFor[x])
      && k'.q.cur == k.q.cur && k'.q.ready == [SSI] && (forall x: Tid :: x in k'.q.wait <==> x in k.q.wait && x != SSI)
  {
    hide Scheduler, Partition, MailOk, PoolOk, TreeOk, LetterOk, Wake;
    SafeAged(k);
    Entered(k);
    Woken(k.q, SSI);
    PartitionMeans(k.q);
    Scheduled(Handle(k, DeviceIrq(3, 0, 1), Still(k)), Still(k));
  }

  /** The message that the last entry of the handler wrote is still there. */
  lemma JustWritten(k: K)
    requires k.written != [] && k.written[|k.written| - 1] == Some(HeldLetter(k))
    requires HeldLetter(k).body.Irq? && HeldLetter(k).body.at == (|k.written| - 1) % SLOTS
    ensures Intact(k)
  {}

  /** The SSI answers the waiter. */
  lemma DiskServed(k: K, c: Tid)
    requires Calm(k) && k.q.cur == Some(SSI) && k.ssi.pc == Got && k.ssi.outbox == [] && k.ssi.dev[0] == Waiter(c)
    requires var l := HeldLetter(k); l.from == Raw(DISK) && l.body.Irq? && l.body.service == INTERRUPT_MSG && l.body.status == 1
    requires SSI !in k.q.wait && Intact(k)
    ensures Aged(k.tree) && Enabled(k, SsiServes)
    ensures Step(k, SsiServes, Still(k)) ==
      k.(ssi := k.ssi.(pc := Sending, outbox := [Reply(c, Word(1))], dev := k.ssi.dev[0 := Device.Idle]))
  {
    hide Partition, MailOk, PoolOk;
    SafeAged(k);
  }

  /** A son c of TEST asks for the disk, and waits for a message from TEST. */
  lemma SonSends(r: Run) returns (s: Run)
    requires IsRun(r) && Canon(Last(r)) && Last(r).q.free != [] && Last(r).ssi.dev[0] == Device.Idle
    ensures IsRun(s) && Extends(r, s)
    ensures var k, k', c := Last(r), Last(s), Last(r).q.free[0];
      && At(k', TEST, [SSI]) && k'.ssi.pc == Got && k'.ssi.outbox == [] && k'.ssi.dev[0] == Device.Idle
      && HeldLetter(k') == Letter(Tcb(c), Req(WAITFORIO, Raw(DISK)))
      && c in k'.q.wait && k'.mail.waitingFor[c] == Tcb(TEST)
      && k'.q.free == k.q.free[1..] && Planted(k.tree, k'.tree, c, CREATESON) && c != SSI && c != TEST
  {
    hide Step, Safe, Enabled, Planted;
    var c := Last(r).q.free[0];
    s := Create(r, CREATESON);
    SsiAsks(Last(s));
    HandStep(Last(s), Magic, Req(WAITFORIO, Raw(DISK)), SSI);
    s := Go(s, SendCall(Magic, Req(WAITFORIO, Raw(DISK))));
    WaitStep(Last(s), Tcb(TEST));
    s := Go(s, RecvCall(Tcb(TEST)));
  }

  /** TEST wakes the son and waits for a message from it: the SSI is about to serve the request. */
  lemma SonAsks(r: Run) returns (s: Run)
    requires IsRun(r) && Canon(Last(r)) && Last(r).q.free != [] && Last(r).ssi.dev[0] == Device.Idle
    ensures IsRun(s) && Extends(r, s)
    ensures var k, k', c := Last(r), Last(s), Last(r).q.free[0];
      && At(k', SSI, [c]) && k'.ssi.pc == Got && k'.ssi.outbox == [] && k'.ssi.dev[0] == Device.Idle
      && HeldLetter(k') == Letter(Tcb(c), Req(WAITFORIO, Raw(DISK)))
      && TEST in k'.q.wait && k'.mail.waitingFor[TEST] == Tcb(c)
      && k'.q.free == k.q.free[1..] && Planted(k.tree, k'.tree, c, CREATESON) && c != SSI && c != TEST
  {
    hide Step, Safe, Enabled, Planted;
    var c := Last(r).q.free[0];
    s := SonSends(r);
    HandStep(Last(s), Tcb(c), Word(7), c);
    s := Go(s, SendCall(Tcb(c), Word(7)));
    WaitStep(Last(s), Tcb(c));
    s := Go(s, RecvCall(Tcb(c)));
  }

  /** The SSI listens again, and the son wakes TEST and dies. */
  lemma SonDies(r: Run, c: Tid) returns (s: Run)
    requires IsRun(r) && c != SSI && c != TEST
    requires var k := Last(r);
      && At(k, SSI, [c]) && k.ssi.pc == AtRecv && k.ssi.outbox == [] && k.ssi.dev[0] == Waiter(c)
      && TEST in k.q.wait && k.mail.waitingFor[TEST] == Tcb(c) && k.tree.kids[c] == []
    ensures IsRun(s) && Extends(r, s) && Canon(Last(s))
    ensures Last(s).ssi.dev[0] == Waiter(c) && Last(s).q.free == Last(r).q.free + [c] && Last(s).tree.next == Last(r).tree.next
  {
    hide Step, Safe, Enabled;
    ListenStep(Last(r));
    s := Go(r, SsiCalls);
    HandStep(Last(s), Tcb(TEST), Word(7), TEST);
    s := Go(s, SendCall(Tcb(TEST), Word(7)));
    DieStep(Last(s));
    s := Go(s, TrapRaised(PgmTrap, 0));
  }

  /** In step a the SSI notes that c, whose serial number is t0, waits for the first disk. */
  ghost predicate Noted(r: Run, a: nat, c: Tid, t0: nat) {
    && a < |r.events| && a < |r.states| && r.events[a] == SsiServes
    && DeviceRuns.DevEventOf(r.states[a], 0) == Some(Devices.Wait(c)) && r.states[a].tree.birth[c] == t0
  }

  /** A son of TEST asks for the disk, and dies when the SSI has noted it: its control block is free, and the SSI's table
      still names it. The result a is the step in which the SSI notes it. */
  lemma Orphan(r: Run) returns (s: Run, a: nat)
    requires IsRun(r) && Canon(Last(r)) && Last(r).q.free != [] && Last(r).ssi.dev[0] == Device.Idle
    ensures IsRun(s) && Extends(r, s) && |r.events| <= a
    ensures var k, k', c := Last(r), Last(s), Last(r).q.free[0];
      && Canon(k') && k'.ssi.dev[0] == Waiter(c) && k'.q.free == k.q.free[1..] + [c]
      && Noted(s, a, c, k.tree.next) && k'.tree.next == k.tree.next + 1
  {
    hide Step, Safe, Enabled, DeviceRuns.DevEventOf, IsRun;
    Lengths(r);
    var c := Last(r).q.free[0];
    var p := SonAsks(r);
    Lengths(p);
    WaitIoStep(Last(p), c);
    a := |p.events|;
    var q := Go(p, SsiServes);
    Lengths(q);
    s := SonDies(q, c);
    Lengths(s);
    assert q.states[a] == Last(p) && q.events[a] == SsiServes;
    assert s.states[a] == q.states[a] && s.events[a] == q.events[a];
  }

  lemma SsiAsks(k: K)
    requires Safe(k) && SSI in k.q.wait
    ensures k.mail.waitingFor[SSI] == Null
  {}

  /** In step s the SSI sends the status 1 to c, which is alive and accepts it. */
  predicate Reaches(r: Run, s: nat, c: Tid) {
    && s < |r.events| && |r.states| == |r.events| + 1 && AnswerRuns.Replies(r, s)
    && r.states[s].ssi.outbox[0] == Reply(c, Word(1)) && Live(r.states[s].q, c)
    && r.states[s + 1].mail.log[c] == r.states[s].mail.log[c] + [Letter(Magic, Word(1))]
  }

  /** The disk interrupts, and the SSI answers the thread that it has noted. */
  lemma Answered(p: Run, c: Tid) returns (r: Run, s: nat)
    requires IsRun(p) && Canon(Last(p)) && Last(p).ssi.dev[0] == Waiter(c) && c != SSI && c != TEST
    requires c in Last(p).q.wait && Last(p).mail.waitingFor[c] == Null
    ensures IsRun(r) && Extends(p, r) && |p.events| <= s && Reaches(r, s, c) && r.states[s].tree == Last(p).tree
  {
    hide Step, Safe, Enabled, IsRun;
    Lengths(p);
    DiskStep(Last(p));
    r := Go(p, DeviceIrq(3, 0, 1));
    WaitStep(Last(r), Null);
    r := Go(r, RecvCall(Null));
    JustWritten(Last(r));
    DiskServed(Last(r), c);
    r := Go(r, SsiServes);
    ReplyStep(Last(r), c, Word(1));
    Lengths(r);
    s := |r.events|;
    var before := Last(r);
    r := Go(r, SsiCalls);
    Lengths(r);
    assert r.states[s] == before && r.events[s] == SsiCalls && r.states[s + 1] == Last(r);
  }

  /** A run in which the answer to a WAITFORIO goes to a stranger: thread 2 asked in step a and died; in step s the SSI
      sends the status to control block 2, which is another thread by then, and that accepts it. */
  lemma AnswerToStranger() returns (r: Run, a: nat, s: nat)
    ensures IsRun(r) && a < s && Reaches(r, s, 2)
    ensures exists t0 :: Noted(r, a, 2, t0) && r.states[s].tree.birth[2] > t0
  {
    hide Step, Safe, Enabled, DeviceRuns.DevEventOf, IsRun, Canon, AnswerRuns.Replies;
    var o := FromBoot(0);
    o, a := Orphan(o);
    Lengths(o);
    var p := Sons(o, 18);
    Lengths(p);
    assert Last(o).q.free[17] == 2;
    SonWaits(Last(p), 2, Last(o).tree.next);
    r, s := Answered(p, 2);
    assert p.states[a] == o.states[a] && p.events[a] == o.events[a];
    assert r.states[a] == p.states[a] && r.events[a] == p.events[a];
    assert Noted(r, a, 2, BootTree().next) && r.states[s].tree.birth[2] > BootTree().next;
  }

  lemma SonWaits(k: K, x: Tid, t0: nat)
    requires IsSon(k, x, t0)
    ensures x in k.q.wait && k.mail.waitingFor[x] == Null && k.tree.birth[x] >= t0
  {}

  // ----- the slot that is written again -----

  /** A terminal in another state than "transmitted" or "received" interrupts: nothing is reported. */
  lemma NothingStep(k: K)
    requires k.status == Running && k.q.cur.Some? && Aged(k.tree)
    ensures Enabled(k, TerminalIrq(0, 4, 1))
    ensures var k' := Step(k, TerminalIrq(0, 4, 1), Still(k));
      && SameOutside(k.(written := k.written + [None]), k') && k'.status == Running && k'.q == k.q && k'.mail == k.mail
  {
    hide Scheduler;
    Entered(k);
    Scheduled(Handle(k, TerminalIrq(0, 4, 1), Still(k)), Still(k));
  }

  function Nones(m: nat): (s: seq<Option<Letter>>)
    ensures |s| == m && forall i :: 0 <= i < m ==> s[i] == None
  {
    seq(m, _ => None)
  }

  /** m such interrupts. */
  lemma {:induction false} Nothing(r: Run, m: nat) returns (s: Run)
    requires IsRun(r) && Calm(Last(r)) && Last(r).q.cur.Some?
    ensures IsRun(s)
    ensures var k, k' := Last(r), Last(s);
      Calm(k') && SameOutside(k.(written := k.written + Nones(m)), k') && k'.q == k.q && k'.mail == k.mail
    decreases m
  {
    hide Step, Safe, Enabled;
    if m == 0 {
      s := r;
      assert Last(r).written + Nones(0) == Last(r).written;
    } else {
      SafeAged(Last(r));
      NothingStep(Last(r));
      var p := Go(r, TerminalIrq(0, 4, 1));
      s := Nothing(p, m - 1);
      assert [None] + Nones(m - 1) == Nones(m);
      assert Last(r).written + [None] + Nones(m - 1) == Last(r).written + Nones(m);
    }
  }

  /** The second disk interrupts while the SSI is ready: the message is queued. */
  lemma SecondDiskStep(k: K)
    requires At(k, TEST, [SSI])
    ensures Aged(k.tree) && Enabled(k, DeviceIrq(3, 1, 2))
    ensures var k' := Step(k, DeviceIrq(3, 1, 2), Still(k));
      && k'.written == k.written + [Some(Letter(Raw(DISK + 0x10), Irq(INTERRUPT_MSG, 2, |k.written| % SLOTS)))]
      && SameOutside(k.(written := k'.written), k') && k'.status == Running && k'.q == k.q
      && k'.mail.inbox[TEST] == [] && k'.mail.v0 == k.mail.v0 && k'.mail.val == k.mail.val
  {
    hide Scheduler, Partition, MailOk, TreeOk, LetterOk;
    SafeAged(k);
    SomeFree(k.mail);
    Entered(k);
    PartitionMeans(k.q);
    Scheduled(Handle(k, DeviceIrq(3, 1, 2), Still(k)), Still(k));
  }

  lemma SomeFree(m: Mail)
    requires PoolOk(m) && forall t: Tid :: m.inbox[t] == []
    ensures m.free != []
  {
    HeldNone(m.inbox, NT, 0);
    assert multiset(m.free)[0] + Held(m.inbox, NT, 0) == 1;
  }

  /** TEST waits, and the SSI runs. */
  lemma HandOffStep(k: K)
    requires Safe(k) && k.status == Running && k.q.cur == Some(TEST) && k.q.ready == [SSI] && k.mail.inbox[TEST] == []
    ensures Aged(k.tree) && Enabled(k, RecvCall(Null))
    ensures var k' := Step(k, RecvCall(Null), Still(k));
      && SameOutside(k, k') && k'.status == Running && k'.q.cur == Some(SSI)
      && k'.mail.v0[SSI] == k.mail.v0[SSI] && k'.mail.val[SSI] == k.mail.val[SSI]
  {
    hide Scheduler, Partition, MailOk, PoolOk, TreeOk, LetterOk;
    SafeAged(k);
    Entered(k);
    Scheduled(Handle(k, RecvCall(Null), Still(k)), Still(k));
  }

  /** What the SSI finds in the slot of its message is what the 48th entry after it wrote. */
  lemma Rewritten(k: K, h: Letter, l: Letter)
    requires k.written == [Some(h)] + Nones(47) + [Some(l)] && HeldLetter(k) == h && h.body.Irq? && h.body.at == 0 && l.body.Irq?
    ensures ReadLetter(k) == Letter(h.from, Irq(l.body.service, l.body.status, 0))
  {
    var ss := Slots.Contents(k.written);
    assert |k.written| == 49 && k.written[48] == Some(l);
    assert ss[48] == Some(Slots.Slot(l.body.service, l.body.status));
    assert Slots.Writer(ss, 0) == 48;
  }

  /** A run in which the SSI reads another message than it was sent: disk 0 interrupts with status 1, then 47 entries of the
      handler report nothing, then disk 1 interrupts with status 2 and its message gets the slot of the
      first. The SSI, about to serve the first message, stores the status 2 for disk 0. */
  lemma RewrittenSlot() returns (r: Run)
    ensures IsRun(r)
    ensures var k := Last(r);
      && k.status == Running && k.q.cur == Some(SSI) && HeldLetter(k) == Letter(Raw(DISK), Irq(INTERRUPT_MSG, 1, 0))
      && Aged(k.tree) && Enabled(k, SsiServes) && !Intact(k)
      && ReadLetter(k) == Letter(Raw(DISK), Irq(INTERRUPT_MSG, 2, 0))
      && Step(k, SsiServes, Still(k)).ssi.dev[0] == Status(2)
  {
    hide Step, Safe, Enabled;
    r := FromBoot(0);
    DiskStep(Last(r));
    r := Go(r, DeviceIrq(3, 0, 1));
    var h := HeldLetter(Last(r));
    r := Nothing(r, 47);
    SecondDiskStep(Last(r));
    r := Go(r, DeviceIrq(3, 1, 2));
    HandOffStep(Last(r));
    r := Go(r, RecvCall(Null));
    var l := Letter(Raw(DISK + 0x10), Irq(INTERRUPT_MSG, 2, 0));
    assert Last(r).written == [Some(h)] + Nones(47) + [Some(l)];
    Rewritten(Last(r), h, l);
    WrongStatus(Last(r));
  }

  lemma WrongStatus(k: K)
    requires Safe(k) && k.status == Running && k.q.cur == Some(SSI) && k.ssi.pc == Got && k.ssi.dev[0] == Device.Idle
    requires HeldLetter(k) == Letter(Raw(DISK), Irq(INTERRUPT_MSG, 1, 0)) && ReadLetter(k) == Letter(Raw(DISK), Irq(INTERRUPT_MSG, 2, 0))
    ensures Aged(k.tree) && Enabled(k, SsiServes) && !Intact(k) && Step(k, SsiServes, Still(k)).ssi.dev[0] == Status(2)
  {
    hide MailOk, PoolOk;
    SafeAged(k);
    PartitionMeans(k.q);
  }

  /** A pseudo-clock tick is due while the SSI listens. */
  lemma TickStep(k: K)
    requires Calm(k) && k.q.cur == Some(TEST) && k.q.ready == [] && Listening(k)
    requires k.tm.now == k.tm.start && k.tm.pseudo == PSEUDO_CLOCK && k.tm.cpuSlice[TEST] == 0 && k.tm.tod == k.tm.now
    ensures Aged(k.tree) && Enabled(k, TimerIrq)
    ensures var k' := Step(k, TimerIrq, Still(k));
      && SameOutside(k.(written := k'.written), k') && k'.status == Running
      && k'.written == k.written + [Some(HeldLetter(k'))]
      && HeldLetter(k') == Letter(Timer, Irq(PSEUDOCLOCK_MSG, 0, |k.written| % SLOTS))
      && (forall x: Tid :: k'.mail.inbox[x] == [] && !k'.mail.frozen[x])
      && k'.q.cur == k.q.cur && k'.q.ready == [SSI]
  {
    hide Scheduler, Partition, MailOk, PoolOk, TreeOk, LetterOk, Wake;
    SafeAged(k);
    Entered(k);
    Woken(k.q, SSI);
    PartitionMeans(k.q);
    Scheduled(Handle(k, TimerIrq, Still(k)), Still(k));
  }

  /** A run that ends with the SSI about to read an interrupt in the slot of a pseudo-clock message: the source then looks
      for the sender of the tick in the device arrays, at the index -1. */
  lemma UnreadableTick() returns (r: Run)
    ensures IsRun(r)
    ensures var k := Last(r);
      && k.status == Running && k.q.cur == Some(SSI) && k.ssi.pc == Got
      && HeldLetter(k) == Letter(Timer, Irq(PSEUDOCLOCK_MSG, 0, 0)) && ReadLetter(k) == Letter(Timer, Irq(INTERRUPT_MSG, 2, 0))
      && !Readable(k)
  {
    hide Step, Safe, Enabled;
    r := FromBoot(PSEUDO_CLOCK);
    TickStep(Last(r));
    r := Go(r, TimerIrq);
    var h := HeldLetter(Last(r));
    r := Nothing(r, 47);
    SecondDiskStep(Last(r));
    r := Go(r, DeviceIrq(3, 1, 2));
    HandOffStep(Last(r));
    r := Go(r, RecvCall(Null));
    var l := Letter(Raw(DISK + 0x10), Irq(INTERRUPT_MSG, 2, 0));
    assert Last(r).written == [Some(h)] + Nones(47) + [Some(l)];
    Rewritten(Last(r), h, l);
  }
}
