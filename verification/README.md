# A verified model of the AmiKaya11 microkernel

AmiKaya11 is a small message-passing kernel for uMPS2. Threads talk through MsgSend and MsgRecv; every
other service (creation, termination, device input and output, the pseudo clock, trap managers) is a
request to one privileged thread, the SSI. This project models the kernel twice and proves that the two
agree.

**The transition function.** `KernelSpec.Step` takes an abstract state (`Types.K`: two queues and a free
list as sequences, a process tree, inboxes and a message pool, trap managers, the SSI's variables, the
clock) through one handler, from its entry to the scheduler's decision, or through the SSI's code between
two of its system calls. `Runs.Run` is any sequence of such steps from boot; PANIC and HALT are absorbing.
`Theorems`, `Fairness`, `Deadlock`, `SsiRuns`, `AnswerRuns` and `DeviceRuns` state what holds in every state
of every run; `Effects`, `Deliveries`, `ServiceRuns` and `ClockRuns` state what each operation brings about in a
step of a run, in terms of the states before and after; and `Witnesses` gives runs from boot for what does
not hold.

**The machine.** `Listx`, `Store`, `Exceptions`, `SsiTables`, `Slots`, `Interrupts` and `Kernel` hold the kernel
as it runs: intrusive circular lists in one shared memory of `next` and `prev` words, two pools, the
globals, the SSI's arrays, the interrupt handler's 48 message slots, and clock registers that hold times
modulo 2^32. Every method is proved to do what the transition function says; at the top, each handler of `Kernel.Machine` ends in a state that lays
out exactly `Step` of the state it began in. `Ties.Laid` is the relation between memory and state. So the
theorems about runs are theorems about the linked lists, the arrays and the registers. `terminate` is the
recursive procedure of the source, with its inner loop; it is proved to end and to equal one simultaneous
removal of the whole subtree (`Cascade`).

Fields marked as history in `Types` do not exist in the source. No step branches on them, except that
`frozen` says which events are allowed. Birth serials give the tree its acyclicity and the recursion its
measure; `log` and `got` are what the message theorems speak about.

## Layout

- `Types`, `Sequences`: constants, the state, sequence facts.
- `ProcessTree`, `ThreadQueues`, `Mailboxes`, `Timing`, `Devices`: the parts of the state, each with its own laws.
- `KernelSpec`: the transition function. `Frames`, `Invariants`, `Accounts`: what each step keeps. `Runs`: runs.
- `Theorems`, `Fairness`, `Deadlock`, `SsiRuns`, `AnswerRuns`, `DeviceRuns`: the results about runs.
- `Effects`, `Deliveries`, `ServiceRuns`, `ClockRuns`: what the handlers, MsgRecv, the SSI's services and the clocks do in a run.
- `Witnesses`: runs that show what the code does not promise.
- `Listx`, `Store`, `Ties`, `Cascade`, `Exceptions`, `SsiTables`, `Slots`, `Interrupts`, `Kernel`: the machine.
- `Brothers`: when CREATEBROTHER damages a list.

## What runs assume

`KernelSpec.Enabled` says which events can happen. Everything it leaves out is listed here.

- A handler ends with its call of the scheduler. The SSI's code between two of its system calls is atomic, and the SSI does not trap.
- Clients reach the SSI as MAGIC_SSI only, with a request that is not one of the two service numbers of the interrupt handler, and do not send interrupt structures.
- A manager answers a thread frozen on it with TRAPTERMINATE or TRAPCONTINUE. Any other message from it would be written through the reply word, which a hand-over leaves at -1 and a trap does not set; `Theorems.FrozenHandOff` says exactly when that would also break the order of the channel. TRAPCONTINUE goes to a thread that is in wait_queue (the source does not check this).
- CREATE requests find a free control block: the source falls through with a NULL thread.
- CREATEBROTHER of a parentless thread requires that the thread whose `t_sib` precedes the requester's has no parent. `Brothers.BrotherKeepsLists` proves that this is exactly when no list is damaged, and `Witnesses.StaleBrotherRun` is a run from boot that fails it.
- The SSI does not read an INTERRUPT_MSG in the slot of a pseudo-clock message that has been written again (`KernelSpec.Readable`): the source then uses -1 as an array index. `Witnesses.UnreadableTick` is a run up to that point. It cannot happen if the SSI serves each message before the 48th later handler entry (`DeviceRuns.PromptIsReadable`). Every other rewritten slot is part of the runs: the SSI serves what it reads.
- The clock does not go back, and the timescale is 1. A bound on the gaps between readings is assumed only where a theorem names it (`ClockRuns.ShortTurns`, `ClockRuns.CountFits`).

## Where the code does less than its comments say

The model follows the code.

- `soft_block_count` is not the number of blocked threads. The decrement in `send` (phase2/src/exceptions.c:199) compares an address that has just been replaced, and the one in `terminate` (:122) compares with an address nobody waits for. So it counts the open requests and all requests ever lost, modulo 2^32 (`Deadlock.SoftBlockExact`; `Accounts.Lost` lists the branches that lose one), and the deadlock PANIC fires exactly when nobody can run and their sum is a multiple of 2^32 (`Deadlock.DeadlockPanicIff`): at a deadlock before which nothing was lost, or, after 2^32 requests, with requests still open (`Deadlock.UnsoundPanicIff`). One SSIRequest whose answer is handed over directly loses one: `Witnesses.UndetectedDeadlock`.
- A parentless brother is never unlinked (phase1/src/tcb.c:180), see above.
- The status handed out when the interrupt came first is not masked (phase2/src/ssi.c:423), the other one is (:242). `Devices.Answer` says which of the two is given.
- A stored status of -1 means "none", so an interrupt with that status is lost unless a thread waits for it (phase2/src/ssi.c:238).
- The clock array has MAXTHREADS entries, of which the loops use one less; a request beyond them is dropped (phase2/src/ssi.c:266).
- An interrupt message carries the address of one of 48 slots, and every handler entry moves on by one, even if it sends nothing. A message is read as it was written if and only if its slot has not been given other contents since (`KernelSpec.Intact`); `Slots.StillThere` says which entries can do that, the 48th later one being the first. In `Witnesses.RewrittenSlot` a disk gets the status of another one. The theorems that compare what a device reports with what a thread receives assume intact slots (`DeviceRuns.AllIntact`), which a prompt SSI has (`DeviceRuns.PromptIsIntact`).
- `terminate` does not clear the SSI's arrays, so an answer can be addressed to a dead or reused control block. It reaches the thread that asked if and only if that incarnation is still alive (`AnswerRuns.AnswerReachesAsker`); `Witnesses.AnswerToStranger` is a run in which another thread gets it.
- The rest of a time slice is computed without sign (phase2/src/scheduler.c:126). A thread that is past its slice at a system call keeps the CPU to the end of the pseudo-clock period (`Timing.SliceKeptIff`, `Witnesses.SliceOvershoot`).
- The answer of a trap manager is recognised by the address the receiver waits for, not by a trap (phase2/src/exceptions.c:375). A thread that only waits in MsgRecv for a message from a manager is let go by TRAPCONTINUE with no message (`Deliveries.LetGoWithNothing`, `Witnesses.LetGo`); that is the only way in which MsgRecv returns without one (`Deliveries.MsgRecvReturns`).
- The pseudo clock leaves out the moments between two successive readings, and what is over the period when a tick is found due (`ClockRuns.PseudoClockExact`).

## Model

| member | source | states |
|---|---|---|
| `Runs.RunsGoOn` | phase2/src/boot.c:189-192 | runs of every length exist unless the kernel stops |
| `Runs.ExtendedIsRun` | phase2/src/interrupts.c:86-345 | a run can go on with every event that can happen |
| `Runs.Reachable` | phase2/src/exceptions.c:325-453 | every state of every run from boot satisfies the kernel invariant: pools, tree, channels, SSI, traps, soft-block account and time account |
| `Theorems.ThreadsPartitioned` | phase2/src/boot.c:139-187 | in every reachable state each control block is exactly once in the free list, ready_queue, wait_queue or the CPU, and thread_count is MAXTHREADS minus the free ones |
| `Theorems.MessagesConserved` | phase1/src/msg.c:43-71 | in every reachable state each message is in the free list or once in the inbox of one live thread, across sends, receives and cascading kills |
| `Theorems.ChannelsAreFifo` | phase2/src/exceptions.c:150-309 | what a live thread got from a sender is a prefix of what was accepted from it since the thread was created, and the rest is exactly what is in the inbox, in order, despite selective receives and direct hand-over |
| `Theorems.DeliveredOnce` | phase2/src/exceptions.c:150-309 | no accepted message, ticks included, is lost or delivered twice |
| `Theorems.NoLostWakeUp` | phase2/src/exceptions.c:249-293 | a thread blocked in MsgRecv has no message it waits for: an empty inbox for ANYMESSAGE, none from the awaited sender otherwise |
| `Theorems.TickTakenFirst` | phase2/src/exceptions.c:170-173 | a pending pseudo-clock tick is what the next MsgRecv from anyone takes |
| `Theorems.FrozenHandOff` | phase2/src/exceptions.c:188-205 | a plain message from the manager to a thread frozen on it keeps the channel in order if and only if whatever that manager still has in the inbox says the same |
| `Theorems.TreeWellFormed` | phase1/src/tcb.c:162-184 | t_parent and child lists agree, a child is listed once, no live thread has a dead relative, nobody is its own ancestor, in every reachable state |
| `Theorems.TerminateFreesSubtree` | phase2/src/exceptions.c:84-137 | terminate of a live thread frees exactly it and its descendants, once each, drops thread_count by their number, returns all their messages to the pool and does not reach its PANIC |
| `Theorems.TerminateSparesOthers` | phase2/src/exceptions.c:84-137 | everybody outside the subtree keeps queue, order, inbox, waiting_for and relatives, except that the parent loses this one child |
| `Theorems.SsiAlive` | phase2/src/interrupts.c:134-183 | the SSI is live in every reachable state, a send to it never returns MSGNOGOOD, and whatever it holds after MsgRecv is a message it can serve |
| `Theorems.HaltMeansSsiAlone` | phase2/src/scheduler.c:51-57 | HALT only when the SSI is the one live thread |
| `Theorems.SoftBlockCovers` | phase2/src/exceptions.c:366-370 | soft_block_count never underflows and is at least the number of requests not yet answered and taken, while fewer than 2^32 requests were made |
| `Theorems.TickRate` | phase2/src/interrupts.c:123-138 | k pseudo-clock messages since boot need at least k periods, for every clock that does not go back, wrap-around included |
| `Theorems.TickRateBetween` | phase2/src/interrupts.c:123-138 | between any two states of a run n pseudo-clock messages need n periods less what had been counted before, and pseudo_tick never grows by more than the time that passes |
| `Theorems.SinceTick` | phase2/src/interrupts.c:137-138 | pseudo_tick, with the later ticks, never exceeds the time since its last reset |
| `Theorems.TicksApart` | phase2/src/interrupts.c:127-138 | any two ticks of a run are at least a period apart |
| `Theorems.CpuTimeConserved` | phase2/src/exceptions.c:339-340 | the cpu time ever charged, to the living and the dead, is at most the time elapsed |
| `Theorems.CpuTimeBracketed` | phase2/src/scheduler.c:88-119 | between two states of a run one incarnation of a thread is charged at most the time that passes |
| `Theorems.CpuTimeAnswers` | phase2/src/p2test.0.2.c:337-371 | the answers to two GETCPUTIME requests of one thread differ, as unsigned 32-bit words, by at most the time between them |
| `Fairness.BoundedBypass` | phase2/src/scheduler.c:85-85 | while a thread stays in ready_queue its position falls by exactly the dispatches of others and the deaths ahead of it, so at most as many others are dispatched as were ahead of it |
| `Fairness.LeavesAsHead` | phase2/src/scheduler.c:85-85 | a thread leaves ready_queue only by dying or from the head, when everybody ahead of it has died |
| `Fairness.FrozenUntilManagerAnswers` | phase2/src/exceptions.c:424-450 | a frozen thread stays frozen on its manager in every step of every run, unless it is terminated or that manager sends TRAPCONTINUE |
| `Fairness.FrozenThreadQueuesLetters` | phase2/src/exceptions.c:207-221 | in every step of every run, whatever is sent to a frozen thread is put at the end of its inbox, nothing else is, and nothing is delivered |
| `SsiRuns.SsiServesAll` | phase2/src/ssi.c:209-251 | over every run the SSI serves exactly the messages it received, once and in order, and those that a device or the timer had accepted for it are exactly what the interrupt handler sent; what an interrupt message says is what its slot holds |
| `DeviceRuns.DeviceFollowsRules` | phase2/src/ssi.c:231-246 | in every run the stored status or waiter of a device, and the answers given, are those of the rendezvous rules applied to its history, with the statuses that the SSI read in the slots |
| `DeviceRuns.KthWaiterGetsKthInterrupt` | phase2/src/ssi.c:411-427 | if the slots were intact when read and neither side gets more than one ahead, the k-th WAITFORIO on a device is answered with the status of the k-th interrupt reported for it: masked if the thread asked first, unmasked if the interrupt came first |
| `DeviceRuns.WaiterReceivesStatus` | phase2/src/ssi.c:242-242 | that answer is sent by exactly one step, and the thread that asked accepts it from the SSI if and only if it is still alive then in the incarnation that asked |
| `DeviceRuns.TickReachesAsked` | phase2/src/ssi.c:218-229 | each message of a tick that the SSI has read is sent by exactly one step, in the order of asking, and reaches the thread if and only if it is still alive in the incarnation that asked |
| `DeviceRuns.TickAnswersAsked` | phase2/src/ssi.c:218-229 | when the SSI reads a tick it prepares one message for each thread that asked since the last one, in order, up to the size of the array, and empties the array |
| `DeviceRuns.ClockHoldsAsked` | phase2/src/ssi.c:261-273 | the clock array holds exactly the threads that asked since the last tick, in order, up to its size |
| `DeviceRuns.ReadByReference` | phase2/src/interrupts.c:130-134 | every interrupt message the SSI serves, tick or device, was written by a definite handler entry in the slot its address names, and is read back intact if at most 47 entries followed, or if no later one wrote that slot |
| `DeviceRuns.StatusesServed` | phase2/src/ssi.c:231-238 | if the slots were intact when read, the statuses in a device's history are those of the messages served from its register |
| `DeviceRuns.PromptIsIntact` | phase2/src/interrupts.c:341-341 | the slots are intact when read if the SSI serves each message before the 48th later handler entry |
| `DeviceRuns.PromptIsReadable` | phase2/src/interrupts.c:341-341 | and it then never reads an interrupt in the slot of a tick |
| `Witnesses.RewrittenSlot` | phase2/src/interrupts.c:179-183 | a run from boot in which the SSI stores the status of disk 1 for disk 0, because the slot was written again |
| `Witnesses.UnreadableTick` | phase2/src/ssi.c:233-236 | a run from boot in which the slot of a tick says INTERRUPT_MSG when the SSI reads it |
| `Effects.EverySendAccepted` | phase2/src/exceptions.c:163-218 | everything a running step sends to a living thread (a client's MsgSend, a trap report, an SSI answer, an interrupt message) is accepted for it, in order, and nothing else is; a dead thread is sent nothing |
| `Effects.TrapFreezes` | phase2/src/exceptions.c:424-450 | after a trap the thread is in wait_queue, frozen on the manager that it named for this kind of trap; without one exactly its subtree is newly free |
| `Effects.AnswersObeyed` | phase2/src/exceptions.c:375-391 | TRAPCONTINUE from the awaited manager makes the thread ready and changes nothing else about messages; TRAPTERMINATE frees exactly its subtree |
| `Effects.SendReturns` | phase2/src/exceptions.c:395-395 | MsgSend returns MSGGOOD if and only if the target lives, and the sender keeps the CPU |
| `Effects.RecvReceives` | phase2/src/exceptions.c:249-309 | MsgRecv takes the first message that it looks for, from anyone or from one sender, and returns its sender and payload; if there is none the thread waits for it |
| `Effects.SchedulerDecides` | phase2/src/scheduler.c:48-131 | after a handler that did not panic: the running thread goes on; otherwise the head of ready_queue is loaded; otherwise HALT, PANIC or WAIT, each if and only if its condition holds |
| `Effects.HaltIff` | phase2/src/scheduler.c:57-57 | HALT if and only if nobody is on the CPU or ready and the SSI is the one live thread |
| `Deliveries.MsgRecvReturns` | phase2/src/exceptions.c:188-205 | a thread blocked in MsgRecv stays blocked until it dies or MsgRecv returns to it the letter sent in that very step, which is one it waits for; unless TRAPCONTINUE comes from a manager it waits for |
| `Deliveries.LetGoWithNothing` | phase2/src/exceptions.c:386-389 | in that case it is made ready and MsgRecv returns nothing, whether it has trapped or not |
| `Witnesses.LetGo` | phase2/src/exceptions.c:386-389 | a run from boot in which a thread that never trapped is let go like that |
| `Deliveries.HandlerPanicsIff` | phase2/src/exceptions.c:163-163 | a handler panics if and only if a letter of this step must be queued and the pool is empty, or a manager terminates a thread that is not there any more |
| `ClockRuns.StepCharges` | phase2/src/interrupts.c:106-108 | in every step the running thread is charged for its time since it was loaded, modulo 2^32, nobody else is charged, and a new thread begins with nothing |
| `ClockRuns.ChargedForTimeOnCpu` | phase2/src/exceptions.c:339-340 | cpu_time of a thread is, modulo 2^32, the sum of its intervals on the CPU since it was created; exactly that sum if no interval lasts 2^32 |
| `ClockRuns.CpuTimeAnswerExact` | phase2/src/ssi.c:405-408 | GETCPUTIME answers that sum modulo 2^32 |
| `ClockRuns.SliceIsTimeOnCpu` | phase2/src/scheduler.c:93-95 | cpu_slice of the running thread is its time on the CPU since it was dispatched |
| `ClockRuns.PreemptedIff` | phase2/src/interrupts.c:142-151 | a timer interrupt moves the running thread to the end of ready_queue if and only if it has had a whole slice; no other interrupt takes the CPU from anyone |
| `ClockRuns.TimerIsSet` | phase2/src/scheduler.c:97-126 | the timer runs to the end of the slice or of the pseudo-clock period, whichever is first |
| `ClockRuns.PseudoStep` | phase2/src/interrupts.c:123-138 | a pseudo-clock message is sent if and only if a timer interrupt finds a whole period counted |
| `ClockRuns.PseudoClockExact` | phase2/src/interrupts.c:123-138 | between two states of a run all time is in pseudo-clock messages, in pseudo_tick, or in the moments between two readings and the overrun of a tick |
| `ServiceRuns.BrotherStands` | phase2/src/ssi.c:276-300 | CREATEBROTHER takes the head of the free list, puts it at the end of ready_queue as last child of the requester's parent (or of nobody), without managers, tells its address, and changes nobody else |
| `ServiceRuns.SonStands` | phase2/src/ssi.c:303-330 | CREATESON does the same with the requester as parent; the son inherits each of the three managers |
| `ServiceRuns.ManagerIsSet` | phase2/src/ssi.c:339-402 | each of the three services sets its own field of the requester, and enters the manager in the array if there is room; a second or a nonexistent manager kills the requester's subtree |
| `ServiceRuns.ServiceOutcome` | phase2/src/ssi.c:258-433 | TERMINATE, a refused manager and an unknown register kill exactly the requester's subtree; waiting and asking for the time change no thread; exactly an unknown service is a PANIC |
| `ServiceRuns.OtherMessages` | phase2/src/ssi.c:254-256 | an interrupt, or a request of a thread that is not there any more, changes no thread |
| `ServiceRuns.WhoDies` | phase2/src/exceptions.c:84-137 | in every step nobody dies but one definite thread with its whole subtree, and only creation takes a control block |
| `ServiceRuns.ManagersStay` | phase2/src/manager.c:45-52 | a death takes one entry of each of the dead out of the array of managers; no other handler changes who is whose manager or relative |
| `Brothers.AddTailKeepsRings` | include/listx.h:42-45 | adding next to a link that is on no ring keeps all rings if and only if the link it followed is on no ring either |
| `Brothers.BrotherKeepsLists` | phase1/src/tcb.c:199-201 | a brother for a parentless thread keeps every list intact if and only if the thread whose t_sib precedes the requester's has no parent |
| `Brothers.StaleBrother` | phase2/src/ssi.c:287-289 | that condition fails after a brother is born and terminated and its control block becomes somebody's son, because outChild does not unlink parentless brothers |
| `Witnesses.StaleBrotherRun` | phase1/src/tcb.c:180-180 | a run from boot that ends with the SSI about to serve such a CREATEBROTHER, with a control block free |
| `AnswerRuns.OutboxDrains` | phase2/src/ssi.c:218-229 | every answer the SSI has decided on is passed to MsgSend exactly once and in order |
| `AnswerRuns.SentOnce` | phase2/src/ssi.c:220-226 | the answer of a given number is sent by one step only |
| `AnswerRuns.AnswerReachesAsker` | phase2/src/exceptions.c:225-226 | the asker gets an answer if and only if it is alive, in the incarnation that asked, when the answer is sent; nobody else gets it, except a new thread in the same control block |
| `AnswerRuns.AnswersArrive` | phase2/src/exceptions.c:188-218 | what a living client has accepted from the SSI since its birth, followed by what the SSI still has to send it, is exactly what the SSI has prepared for it, in order |
| `AnswerRuns.AnswerTaken` | phase2/src/exceptions.c:295-305 | an answer that reached its receiver is the one it receives at that place |
| `Witnesses.AnswerToStranger` | phase2/src/ssi.c:236-243 | a run from boot in which the status for a dead waiter goes to another thread in its control block |
| `Deadlock.SoftBlockExact` | phase2/src/exceptions.c:299-300 | in every running state soft_block_count is the number of open requests plus the number of requests lost so far, modulo 2^32, where lost ones are counted by the branches that lose them and stay counted |
| `Deadlock.DeadlockPanicIff` | phase2/src/scheduler.c:66-66 | the scheduler panics if and only if nobody can run, there are clients, and open and lost requests together are a multiple of 2^32; before that many requests, if and only if none is open and none was ever lost |
| `Deadlock.UnsoundPanicIff` | phase2/src/scheduler.c:59-66 | it panics although a request is open if and only if open and lost requests together are a positive multiple of 2^32 |
| `Deadlock.HandOverLeaks` | phase2/src/exceptions.c:199-200 | after one answer that is handed over directly the counter stays above the number of open requests and the deadlock PANIC cannot fire any more |
| `Deadlock.DeadlockIsForever` | phase2/src/scheduler.c:59-66 | after a deadlock no client ever runs again or is sent anything |
| `Witnesses.UndetectedDeadlock` | phase2/src/scheduler.c:69-77 | a run from boot that reaches a deadlock which the scheduler takes for a wait |
| `Witnesses.SliceOvershoot` | phase2/src/scheduler.c:126-126 | a run from boot in which a thread past its slice gets the CPU to the end of the pseudo-clock period |
| `Accounts.StepBalance` | phase2/src/exceptions.c:299-300 | every step keeps the counter equal, modulo 2^32, to the open requests plus those lost |
| `Accounts.StepCovered` | phase2/src/exceptions.c:300-300 | every step keeps soft_block_count at least the number of open requests |
| `Mailboxes.HandOverFifoIff` | phase2/src/exceptions.c:188-202 | direct hand-over keeps all channels of the receiver in order if and only if the same sender's waiting messages say the same |
| `Kernel.Machine.constructor` | phase2/src/boot.c:136-190 | main and its call of the scheduler build lists, registers and tables that stand for the first state of a run |
| `Kernel.Machine.Enter` | phase2/src/exceptions.c:338-340 | handler entry on the registers modulo 2^32 charges the running thread as the specification says |
| `Kernel.Machine.Load` | phase2/src/scheduler.c:87-126 | timer, pseudo_tick, start_pseudo_tick and slice as the specification computes them from unwrapped clock readings |
| `Kernel.Machine.Scheduler` | phase2/src/scheduler.c:48-131 | the scheduler on the linked queues and registers is the specified decision: dispatch, HALT, deadlock PANIC or WAIT |
| `Kernel.Machine.SysBpHandler` | phase2/src/exceptions.c:324-453 | the whole handler on linked lists equals one step of the transition function, and the invariant is kept |
| `Kernel.Machine.TrapHandler` | phase2/src/exceptions.c:465-543 | pgmtrap_handler and tlb_handler equal one step |
| `Kernel.Machine.IntHandler` | phase2/src/interrupts.c:86-345 | the whole interrupt handler equals one step, for the interrupt of highest priority |
| `Kernel.Machine.TimerInterrupt` | phase2/src/interrupts.c:119-153 | pseudo clock first, then the slice of the running thread, as specified |
| `Kernel.Machine.SliceOver` | phase2/src/interrupts.c:142-151 | preemption or a new timer value |
| `Kernel.Machine.Notify` | phase2/src/interrupts.c:130-134 | the message is written to the slot of this entry and its address sent to the SSI; PANIC if the SSI does not exist |
| `Kernel.Machine.TickIfDue` | phase2/src/interrupts.c:127-140 | a pseudo-clock message and a new count when a period is over |
| `Kernel.Machine.DeviceInterrupt` | phase2/src/interrupts.c:157-186 | the message of the first pending device of a line, from its register address |
| `Kernel.Machine.Terminal` | phase2/src/interrupts.c:299-336 | transmission before reception; any other status sends nothing |
| `Kernel.Machine.ServeLine` | phase2/src/interrupts.c:119-338 | the lines in order of priority |
| `Kernel.Machine.SsiCalls` | phase2/src/ssi.c:212-213 | the SSI's system calls are one step |
| `Kernel.Machine.Serve` | phase2/src/ssi.c:215-435 | the SSI's code from MsgRecv to its next system call, on its arrays, the linked lists and the handler's slots, equals one step |
| `Kernel.Machine.Service` | phase2/src/ssi.c:258-433 | each service equals its specification, and an unknown one is a PANIC |
| `Kernel.Machine.SpecManager` | phase2/src/ssi.c:339-402 | a second or a nonexistent manager terminates the requester's subtree; otherwise the manager is entered in the array and the thread |
| `Kernel.Machine.WaitForIo` | phase2/src/ssi.c:411-427 | an unknown register terminates the requester's subtree; otherwise the rendezvous |
| `Kernel.Machine.CreateBrother` | phase2/src/ssi.c:276-300 | a child of the requester's parent, or a parentless brother |
| `Kernel.Machine.CreateSon` | phase2/src/ssi.c:303-330 | a child that inherits the trap managers |
| `Exceptions.Nucleus.constructor` | phase2/src/boot.c:139-187 | both pools, both queues and the two first threads, laid out in memory |
| `Exceptions.Nucleus.Send` | phase2/src/exceptions.c:150-228 | send on the linked lists equals the specification, with its result |
| `Exceptions.Nucleus.Queue` | phase2/src/exceptions.c:163-175 | an allocated message at the head (tick) or tail of the inbox; an empty pool is a PANIC |
| `Exceptions.Nucleus.HandTo` | phase2/src/exceptions.c:188-205 | the waiting thread moves to ready_queue with the message |
| `Exceptions.Nucleus.Recv` | phase2/src/exceptions.c:244-309 | recv on the linked lists equals the specification, both when it blocks and when it finds a message |
| `Exceptions.Nucleus.BlockOn` | phase2/src/exceptions.c:283-292 | the current thread at the tail of wait_queue |
| `Exceptions.Nucleus.Terminate` | phase2/src/exceptions.c:84-137 | the recursive terminate on the linked lists ends, and equals the one-shot removal of the whole subtree |
| `Exceptions.Nucleus.TerminateChildren` | phase2/src/exceptions.c:92-96 | the loop over the first child leaves exactly the subtrees of all children dead |
| `Exceptions.Nucleus.Unlink` | phase1/src/tcb.c:179-184 | outChild on the linked lists is removal from the parent's children |
| `Exceptions.Nucleus.UnlinkChild` | phase1/src/tcb.c:168-176 | removeChild takes the first child |
| `Exceptions.Nucleus.Release` | phase2/src/exceptions.c:98-136 | a thread without relatives leaves its queue, inbox and control block; in no queue it is a PANIC |
| `Exceptions.Nucleus.DeleteManager` | phase2/src/manager.c:45-52 | the first entry of the manager is cleared |
| `Exceptions.Nucleus.AddManager` | phase2/src/manager.c:33-42 | the manager in the first entry that is its own or empty |
| `Exceptions.Nucleus.ThereIsManager` | phase2/src/manager.c:55-60 | membership in the array |
| `Exceptions.Nucleus.MsgSend` | phase2/src/exceptions.c:361-399 | the MsgSend handler, with the interception of trap answers, equals the specification |
| `Exceptions.Nucleus.RaiseTrap` | phase2/src/exceptions.c:424-450 | without a manager the subtree dies, with one the thread is reported and frozen |
| `Exceptions.Nucleus.CreateBrother` | phase2/src/ssi.c:283-295 | the new control block in the tree, the free list and ready_queue, every other list unchanged |
| `Exceptions.Nucleus.CreateSon` | phase2/src/ssi.c:311-325 | the same for a son, with the managers of the requester |
| `Exceptions.Nucleus.SetManager` | phase2/src/ssi.c:348-354 | array and thread field |
| `Exceptions.Nucleus.Exists` | phase2/src/ssi.c:254-256 | found in one of the two queues |
| `Exceptions.Nucleus.Dispatch` | phase2/src/scheduler.c:85-85 | the head of ready_queue becomes current_thread |
| `Exceptions.Nucleus.Preempt` | phase2/src/interrupts.c:145-146 | current_thread to the tail of ready_queue |
| `Cascade.KillTwice` | phase2/src/exceptions.c:92-96 | killing two disjoint groups one after the other is killing them together |
| `Cascade.KillDetach` | phase2/src/exceptions.c:90-90 | unlinking a thread before it is killed makes no difference |
| `Cascade.HalfWayStep` | phase2/src/exceptions.c:93-96 | one turn of terminate's loop: the next child's subtree is still as it was and is what dies |
| `Cascade.HalfWayEnd` | phase2/src/exceptions.c:98-134 | after the loop, the thread itself completes its subtree |
| `Ties.QueueLaid` | phase2/src/exceptions.c:163-175 | the memory after posting a message lays out the state with the message queued |
| `Ties.HandOverLaid` | phase2/src/exceptions.c:188-205 | the same for a hand-over |
| `Ties.ReceivedLaid` | phase2/src/exceptions.c:295-305 | the same for a received message |
| `Ties.DetachLaid` | phase1/src/tcb.c:179-184 | the same for an unlinked child |
| `Ties.RetireLaid` | phase2/src/exceptions.c:98-134 | the same for a freed thread |
| `Ties.ChildLaid` | phase2/src/ssi.c:311-325 | the same for a new child |
| `Ties.SiblingLaid` | phase2/src/ssi.c:287-295 | the same for a new parentless brother |
| `Store.Pools.constructor` | phase1/src/tcb.c:58-67 | two full free lists and two empty queues |
| `Store.Pools.InitFree` | phase1/src/msg.c:43-50 | the free list holds all elements in order |
| `Store.Pools.InsertThread` | phase1/src/tcb.c:118-120 | tail insertion; every other list unchanged |
| `Store.Pools.RemoveThread` | phase1/src/tcb.c:123-129 | the head is removed; NULL for an empty queue |
| `Store.Pools.OutThread` | phase1/src/tcb.c:132-142 | found and removed if and only if it is in the queue, order of the rest kept |
| `Store.Pools.ThereIsThread` | phase1/src/tcb.c:189-196 | found if and only if it is in the queue |
| `Store.Pools.AllocTcb` | phase1/src/tcb.c:77-102 | the first free control block, with empty lists and reset fields, every other list unchanged |
| `Store.Pools.InsertChild` | phase1/src/tcb.c:162-165 | tail of the parent's children, and t_parent |
| `Store.Pools.RemoveChild` | phase1/src/tcb.c:168-176 | the first child, if there is one |
| `Store.Pools.OutChild` | phase1/src/tcb.c:179-184 | removed from its parent's children; nothing without a parent |
| `Store.Pools.InsertSibling` | phase1/src/tcb.c:199-201 | the two links that change, when neither neighbour is on a list |
| `Store.Pools.AllocMsg` | phase1/src/msg.c:60-71 | the first free message, reset |
| `Store.Pools.InsertMessage` | phase1/src/msg.c:85-87 | tail insertion |
| `Store.Pools.PushMessage` | phase1/src/msg.c:90-92 | head insertion |
| `Store.Pools.PopMessage` | phase1/src/msg.c:96-113 | the first message, or the first from a sender; exactly that one is removed |
| `Store.Pools.SeekMessage` | phase1/src/msg.c:123-132 | the first message from a sender, or the head if there is none |
| `Store.Pools.Receive` | phase2/src/exceptions.c:280-303 | a message is found, read and returned to the pool |
| `Store.Pools.Drain` | phase2/src/exceptions.c:126-129 | the whole inbox goes to the end of the free list, in order |
| `Store.Pools.Retire` | phase2/src/exceptions.c:100-134 | queue, inbox and control block, or nothing for a thread found nowhere |
| `Listx.Links.InitHead` | include/listx.h:24-28 | an empty ring; all other rings unchanged |
| `Listx.Links.InitLink` | include/listx.h:24-28 | a link that is on no ring points to itself |
| `Listx.Links.AddBetween` | include/listx.h:29-37 | the four words written |
| `Listx.Links.Add` | include/listx.h:38-41 | head insertion on one ring of a shared memory, all others unchanged |
| `Listx.Links.AddTail` | include/listx.h:42-45 | tail insertion on one ring of a shared memory, all others unchanged |
| `Listx.Links.AddTailLoose` | include/listx.h:42-45 | next to a link on no ring: no ring changes |
| `Listx.Links.Del` | include/listx.h:46-54 | removal from one ring, all others unchanged, and the link is on no ring afterwards |
| `Listx.Links.DelFirst` | phase1/src/tcb.c:82-83 | the member behind the head is removed |
| `Listx.Links.IsEmpty` | include/listx.h:60-63 | true if and only if the ring has no members |
| `Listx.Links.Follow` | include/listx.h:85-88 | one step of an iteration, which ends at the head after all members |
| `SsiTables.Tables.constructor` | phase2/src/ssi.c:198-207 | no status, no waiter, nobody in the clock array |
| `SsiTables.Tables.Interrupt` | phase2/src/ssi.c:231-244 | status to the waiter or kept; never both a status and a waiter |
| `SsiTables.Tables.Wait` | phase2/src/ssi.c:415-426 | kept status to the thread, or the thread kept |
| `SsiTables.Tables.Register` | phase2/src/ssi.c:261-273 | the first empty entry is the end of the queue; a full array drops the request |
| `SsiTables.Tables.Tick` | phase2/src/ssi.c:218-229 | one message per registered thread in order; the early exit skips nobody; the array is left empty |
| `Devices.RestIndex` | phase2/src/ssi.c:49-100 | an index below 48, or -1 |
| `Devices.IndexOfRegister` | phase2/src/interrupts.c:167-167 | the address computed for a device of a line has the index of that line and device |
| `Devices.IndexInjective` | phase2/src/ssi.c:49-100 | two registers never share an index |
| `Devices.WhichDeviceIsFirst` | phase2/src/interrupts.c:61-70 | the chosen device is pending and none of lower number is |
| `Devices.Rendezvous` | phase2/src/ssi.c:231-246 | on a balanced history the k-th request gets the k-th status, masked exactly if the thread was first, and the device holds exactly the side that is ahead |
| `Devices.MaskedIff` | phase2/src/ssi.c:423-423 | the answer is the masked status if and only if the thread was first or there was nothing to mask |
| `Devices.BalancedIffNothingLost` | phase2/src/ssi.c:415-426 | one more event keeps the history balanced if and only if it overwrites nothing |
| `Interrupts.HighestPriority` | phase2/src/interrupts.c:119-338 | nothing of higher priority is passed over |
| `Interrupts.LineIs` | phase2/src/interrupts.c:119-288 | the chain of tests finds the lowest pending line |
| `Slots.MessageSlots.constructor` | phase2/src/interrupts.c:47-49 | 48 slots and the index 0 |
| `Slots.MessageSlots.Write` | phase2/src/interrupts.c:179-181 | an entry writes its own slot |
| `Slots.MessageSlots.Next` | phase2/src/interrupts.c:341-341 | every entry moves the index on |
| `Slots.MessageSlots.Read` | phase2/src/ssi.c:216-238 | reading by address gives the last writer's message, which is the right one if at most 47 entries followed |
| `Slots.StillThere` | phase2/src/interrupts.c:341-341 | a message stays in its slot exactly as long as no later entry writes the same slot; the first that can is the 48th |
| `Invariants.StepSafe` | phase2/src/exceptions.c:324-453 | every step keeps the invariant |
| `Invariants.BootSafe` | phase2/src/boot.c:139-187 | the initial state satisfies it |
| `Invariants.SendSafe` | phase2/src/exceptions.c:150-228 | send keeps it, if it wakes no frozen thread |
| `Invariants.RecvSafe` | phase2/src/exceptions.c:244-309 | recv keeps it |
| `Invariants.KillSafe` | phase2/src/exceptions.c:84-137 | a cascading kill keeps it and never reaches the SSI |
| `Invariants.MsgSendSafe` | phase2/src/exceptions.c:361-399 | MsgSend keeps it |
| `Invariants.TrapSafe` | phase2/src/exceptions.c:424-450 | a trap keeps it |
| `Invariants.SsiServeSafe` | phase2/src/ssi.c:215-435 | each service keeps it |
| `Invariants.SchedulerSafe` | phase2/src/scheduler.c:48-131 | the scheduler keeps it |
| `Timing.Elapsed` | phase2/src/exceptions.c:339-339 | unsigned 32-bit subtraction of clock readings never exceeds the true difference |
| `Timing.ChargeOk` | phase2/src/exceptions.c:339-340 | charging keeps the time account |
| `Timing.RestartOk` | phase2/src/interrupts.c:126-140 | a tick is sent only for a whole counted period |
| `Timing.LoadOk` | phase2/src/scheduler.c:87-119 | loading a thread keeps the time account |
| `Timing.TimerInTime` | phase2/src/scheduler.c:97-103 | the timer is never set past the end of the pseudo-clock period, and a newly dispatched thread gets at most one slice |
| `Timing.SliceKeptIff` | phase2/src/scheduler.c:122-126 | a thread that goes on after a system call is interrupted by the end of its slice if and only if it is not past it already; past it, it keeps the CPU to the end of the period |
| `Fairness.StepPlace` | phase2/src/scheduler.c:82-85 | one step moves a ready thread up by one for a dispatch and by one for each death ahead of it, and by nothing else |
| `ProcessTree.PostOrderMembers` | phase2/src/exceptions.c:84-96 | the order of death lists exactly the subtree |
| `ProcessTree.PostOrderNoDup` | phase2/src/exceptions.c:84-96 | and each thread once |
| `ThreadQueues.ReapOk` | phase2/src/exceptions.c:100-134 | a mass removal keeps every control block in exactly one place |

## Left out

- Register save and restore, the New and Old Areas, stacks and status bits: the processor state is v0 and the word behind the reply pointer.
- The reply pointer itself: each thread has one cell that MsgRecv fills, so a client that passes overlapping reply addresses is not captured.
- Device commands and acknowledgements, and the ROM routines beyond their absorbing outcomes.
- The evaluation order in the assignment of v0 from `recv` (phase2/src/exceptions.c:414): modelled as a write to the receiver's v0.
- Preemption inside the SSI's code between two system calls.
- Kernel.Machine.Serve: requires the event to be allowed, as listed under "What runs assume".
- The registers of a created thread, which are copied from the request: its v0 is what `allocTcb` leaves.
- A request structure of a client is copied when it is sent; in the source it lives on the client's stack until the SSI reads it.
- The failed branch of CREATEBROTHER and CREATESON, which dereferences NULL.
- Uniqueness in the array of trap managers: it is false of the code, and the array is modelled entry by entry.
- Exceptions.Nucleus.Send: the decrement of soft_block_count at phase2/src/exceptions.c:199 is not in the method, because its condition cannot hold.
- Control blocks that were never allocated hold zeroes; the source leaves their lists uninitialised until allocation, and so does the model.
- Liveness beyond bounded bypass: that a thread is dispatched at all depends on the hardware delivering interrupts.
- headThread, headMessage, list_is_last, list_next, list_prev and the reverse iterations, which the kernel does not use.
- SSIRequest (phase2/src/ssi.c:150): a client's MsgSend followed by its MsgRecv, both of which are events here.
- Exceptions.Nucleus.CreateBrother: requires a free control block and the condition on the requester's neighbour, because without them the source writes through NULL or into another thread's child list.
- Exceptions.Nucleus.CreateSon: requires a free control block, because without one the source writes through NULL.
- Exceptions.Nucleus.MsgSend: requires that a TRAPCONTINUE from the awaited manager finds its thread in wait_queue, because otherwise the source inserts NULL into ready_queue.
- Exceptions.Nucleus.Recv: requires that nobody names the SSI by its own address, which clients do not know.
- Exceptions.Nucleus.BlockOn: requires that nobody waits for the SSI by its own address, which clients do not know.
- Exceptions.Nucleus.RaiseTrap: requires that the SSI is not the manager, which holds in every reachable state.
- Store.Pools.InsertSibling: requires that both neighbouring links are on no list; `Brothers.AddTailKeepsRings` is the general case.
- Kernel.Machine.SysBpHandler: requires the event to be allowed, as listed under "What runs assume".
- Kernel.Machine.TrapHandler: requires the event to be allowed, as listed under "What runs assume".
- Kernel.Machine.Service: requires a free control block for creation and the condition on brothers.
- Kernel.Machine.CreateBrother: requires a free control block and the condition on brothers.
- Kernel.Machine.CreateSon: requires a free control block.
- Theorems.DeadlockPanicIsSound: speaks of open requests only below 2^32 requests; `Deadlock.DeadlockPanicIff` has no such bound.
- Theorems.DeadlockPanicInRuns: speaks of open requests only below 2^32 requests; `Deadlock.DeadlockPanicIff` has no such bound.
