# A verified model of the MiKABoO microkernel

MiKABoO is a small kernel in C: processes own threads, threads talk by blocking messages, and every
service but send and receive is a message to one system thread, the SSI. All records live in three
fixed pools and all queues are circular lists threaded through the records. This project models that
kernel in Dafny and proves that its four layers hold together.

The project has two levels.

* **The value level.** `Kernel.State` is the whole kernel as a value: the abstract lists
  (`map` from sentinel to the sequence of its members), the pools, the running thread, the registers
  and payload cells that the kernel touches, the counters, the I/O slot and the position of the SSI in
  its loop. Each kernel routine is a function on it, and `Machine` makes the atomic steps of the kernel
  into a state machine: computation of the running thread, send, receive, a client request, timer
  tick, terminal interrupt, and the two halves of the SSI loop. The pool sizes are arbitrary.
* **The imperative level.** `Links.LinkHeap` holds the real `next`/`prev` pointers, `Pools.PoolHeap`
  the record arrays, `Nucleus.Nucleus` the globals. Their methods follow the C statement by statement,
  with its loops, and each is proved to change the state exactly as the value-level function says.
  `Nucleus.Nucleus.Step` runs any step of the machine on the pointers.

What is then proved of every state and every run:

* one invariant (`Machine.Inv`) across lists, messages, scheduling and the process tree, established by
  the start-up code and kept by every step;
* messages between two live threads arrive exactly once and in order, whether handed over directly or
  queued, and what counts as received is what the receiver finds in its registers and memory;
* direct delivery refines queueing followed by a receive, up to the order of the free slots;
* terminating a process removes exactly its subtree, wakes exactly the threads left waiting, in a known
  order, and loses no message between survivors;
* with clients that use requests as `src/nucleus.h` wraps them, the SSI never serves a dead thread, and
  a client waits in vain exactly if its request was refused for want of a message slot; all other
  requests are taken up in the order of arrival, within a bounded number of receives of the SSI;
* the shutdown verdict is exact and final; the deadlock verdict is wrong exactly when the I/O count has
  wrapped with a request pending;
* the ready queue is fair, and the records of each pool are conserved.

## Places where the code falls short of what is wanted

Each has its exact condition, and a run into it from the first state of the machine (`Startup.Opening`).

* `soft_block_count` is only ever incremented and is an unsigned int. The deadlock verdict is wrong exactly
  when it has wrapped to 0 with a request pending (`Idle.VerdictIsFinal`); after 2^32 requests, one after
  the other, it does (`Traces.DeadlockVerdictWraps`).
* A timer tick trips the assertion in `src/scheduler.c:108` exactly when the processor waits for I/O
  (`Idle.TickWhileWaiting`), although the handler has just armed the timer; the first I/O request of the
  only client leads there (`Traces.IdleTickFails`).
* Termination cleans at most one request of a victim, and only of a blocked one that is not the applicant
  (`Stale.ProcessStaleExactlyWhen`). A client preempted between the send and the receive of its request, and
  then terminated by a sibling, leaves the SSI with the request of a dead thread (`Traces.DeadApplicant`,
  `Traces.StaleFromStart`). This is why the machine treats a request as one step and why the protocol is an
  assumption of `Protocol.PoliteRunSafe`.
* The request wrappers ignore the result of the send. If the SSI is busy and the message pool is empty, the
  client waits for an answer that nobody owes it, for the rest of its life (`Promises.StepStrands`,
  `Promises.RunStrands`); `Traces.ClientStranded` and `Traces.StrandedFromStart` show a run.
* A payload handed directly to the waiting SSI can be overwritten in the same step, exactly when the client
  receives into the cell that the SSI gave and a reply with another payload is queued for it
  (`Delivery.GotIsFound`); `Traces.PayloadClobbered` is a run. Under the client protocol that never happens
  (`Promises.PoliteGotIsFound`).

A receive may also name a descriptor that is not in use (`src/handlers/syscall.c:119-122` does not look). The
invariant survives that, but the receiver stays blocked, without an error, as long as the descriptor is not
allocated again (`Forgotten.StaysForsaken`); the first client can bring the machine to a deadlock so
(`Traces.ClientForsaken`).

Where comments and code disagree the model follows the code: `thread_alloc` returns the descriptor or
NULL (not 0 or -1, `src/mikabooq.h:78-79`), and the removal of a victim's request need not find one
(`src/SSI/services/terminate_process.c:13`), for instance when the SSI has already received it.

## What the kernel relies on

The model has these as conditions of a step or of a run; the C code does not check them.

* The SSI serves a live thread of the pool; `Protocol.PoliteRunSafe` proves this when clients keep to
  the protocol and no request ends the thread registered for I/O before the I/O is done (`Ssi.Polite`).
* Interrupts are masked while the SSI runs.
* Addresses passed to the kernel are addresses of descriptors (`Addresses.Names`).
* `thread_free` unlinks both links of the descriptor without looking (`src/mikabooq.c:181-182`), so both
  must be on lists; the invariant provides this at every call.

## Model

| member | source | states |
|---|---|---|
| Links.InsertKeepsRings | src/listx.h:31-36 | the four stores insert the node at one position of one ring; every other ring is intact |
| Links.DeleteKeepsRings | src/listx.h:46-54 | the node's own pointers name its neighbours, and the two stores take it out of its list and no other |
| Links.LinkHeap.InitListHead | src/listx.h:26-29 | a fresh sentinel becomes an empty list; the other lists stay |
| Links.LinkHeap.ListInsert | src/listx.h:31-36 | insertion between two neighbours is insertion at that position of the sequence |
| Links.LinkHeap.ListAdd | src/listx.h:38-40 | prepends to one list |
| Links.LinkHeap.ListAddTail | src/listx.h:42-44 | appends to one list |
| Links.LinkHeap.ListDel | src/listx.h:46-54 | removes the node from whatever list holds it |
| Links.LinkHeap.ListEmpty | src/listx.h:65-68 | true exactly when the sequence is empty |
| Links.LinkHeap.ListIsOnly | src/listx.h:60-64 | true exactly when the sequence is that one node |
| Links.LinkHeap.ListNext | src/listx.h:70-76 | the first member, or NULL exactly when the list is empty |
| Pools.PoolHeap.constructor | src/mikabooq.c:33-52 | after initialisation every record is blank and on its free list, every other list is empty |
| Pools.PoolHeap.ProcInit | src/mikabooq.c:33-52 | the loop links all non-root processes in index order and blanks them |
| Pools.PoolHeap.ThreadInit | src/mikabooq.c:140-150 | the loop links all descriptors in index order and blanks them |
| Pools.PoolHeap.MsgqInit | src/mikabooq.c:241-248 | the loop links all messages, last first, without sender |
| Boot.FreshOrder | src/mikabooq.c:33-248 | processes and descriptors are free in array order, messages in the opposite order |
| Pools.PoolHeap.ProcAlloc | src/mikabooq.c:62-77 | head of the free list to the tail of the parent's children; NULL without parent or free record |
| Pools.PoolHeap.ProcDelete | src/mikabooq.c:83-97 | fails unchanged for the root, a free process, children or threads; otherwise frees and blanks the process |
| Pools.PoolHeap.FirstChild | src/mikabooq.c:114-116 | the first child or NULL |
| Pools.PoolHeap.FirstThread | src/mikabooq.c:128-130 | the first thread or NULL |
| Pools.PoolHeap.ThreadAlloc | src/mikabooq.c:152-167 | head of the free list to the tail of the process's threads, ready; NULL without process or free descriptor |
| Pools.PoolHeap.ThreadFree | src/mikabooq.c:169-188 | -1 with messages left, -2 with waiters left, else cleaned, off its scheduling list and on the free list |
| Pools.PoolHeap.ThreadEnqueue | src/mikabooq.c:202-204 | appends to a scheduling list |
| Pools.PoolHeap.ThreadQhead | src/mikabooq.c:218-220 | the first thread of a scheduling list or NULL |
| Pools.PoolHeap.ThreadDequeue | src/mikabooq.c:235-237 | takes the first thread off a scheduling list, or NULL and no change |
| Pools.PoolHeap.ThreadOutqueue | src/mikabooq.h:103-105 | takes a thread off whatever scheduling list holds it |
| Pools.PoolHeap.MsgqAdd | src/mikabooq.c:250-269 | a free slot, filled, goes to the tail of the mailbox; fails unchanged without slot, sender or destination |
| Pools.PoolHeap.MsgqFree | src/mikabooq.c:342-349 | the slot leaves its mailbox for the tail of the free list |
| Pools.PoolHeap.Search | src/mikabooq.c:326-338 | the walk along the pointers finds the first message of the sender, if any |
| Pools.PoolHeap.MsgqGet | src/mikabooq.c:300-340 | takes the first accepted message, or fails with no change |
| FastPath.SelectiveReceive | src/mikabooq.c:300-340 | that message is the first match; the rest keeps its order; failure exactly when nothing matches |
| Nucleus.Nucleus.Start | src/scheduler.c:69-85 | initialisation, loading the SSI and the first thread, each with its own state, and the first dispatch establish every invariant, with the SSI running, one thread of the root ready and no message sent |
| Nucleus.Nucleus.LoadSsi | src/SSI/ssi.c:17-36 | the SSI is initialised, ready and counted |
| Nucleus.Nucleus.LoadFirst | src/tests/debug_tests.c:158-169 | the first thread joins the root process and the first dispatch runs the SSI |
| Startup.AloneCore | src/SSI/ssi.c:17-36 | the invariant holds once the SSI is loaded |
| Startup.FirstState | src/init.c:14-32 | the first dispatched state satisfies every invariant, with the state of the SSI on the processor and exactly one other thread, ready with its own |
| Nucleus.Nucleus.ResumeThread | src/handlers/syscall.c:54-67 | wakes a blocked thread as `Kernel.Resume` says and keeps the invariant |
| Nucleus.Nucleus.Send | src/handlers/syscall.c:70-96 | three-way send on the pointers, as `Kernel.Send`, keeping the invariant |
| Nucleus.Nucleus.SendSyscall | src/handlers/syscall.c:157-165 | send with the return code in a1 |
| Nucleus.Nucleus.RecvSyscall | src/handlers/syscall.c:98-132 | receive: message delivered, or blocked on the right queue, that of an unused descriptor included, and rescheduled, keeping the invariant |
| Nucleus.Nucleus.Scheduler | src/scheduler.c:95-132 | dispatches the head of the ready queue or gives the verdict of an empty one |
| Nucleus.Nucleus.IntervalTimer | src/handlers/interrupts.c:38-49 | saves, requeues at the tail, dispatches |
| Nucleus.Nucleus.Acknowledge | src/handlers/interrupts.c:54-83 | answers for the SSI, empties the slot, leaves the idle wait |
| Nucleus.Nucleus.StartThread | src/SSI/services/create_thread.c:2-13 | allocates, loads, enqueues and counts a thread, or changes nothing |
| Nucleus.Nucleus.CreateThreadService | src/SSI/services/create_thread.c:18-21 | the same in the applicant's process |
| Nucleus.Nucleus.CreateProcessService | src/SSI/services/create_process.c:3-21 | creation with rollback, keeping the invariant |
| Nucleus.Nucleus.DrainMailbox | src/SSI/services/terminate_thread.c:6-8 | the first loop terminates and frees the whole mailbox |
| Nucleus.Nucleus.WakeWaiters | src/SSI/services/terminate_thread.c:16-20 | the second loop terminates and wakes all waiters |
| Nucleus.Nucleus.EndThreadNow | src/SSI/services/terminate_thread.c:3-34 | both loops, `thread_free` and the count, keeping the invariant |
| Nucleus.Nucleus.CleanRequest | src/SSI/services/terminate_process.c:10-20 | takes one pending request out of the mailbox chosen by the code |
| Nucleus.Nucleus.EndThreads | src/SSI/services/terminate_process.c:36-44 | the loop over the first thread ends all threads of the process |
| Nucleus.Nucleus.EndTree | src/SSI/services/terminate_process.c:28-53 | the recursion terminates and does what `Kernel.KillTree` says; only the subtree is gone |
| Nucleus.Nucleus.EndProcessService | src/SSI/services/terminate_process.c:55-58 | ends the applicant's process |
| Nucleus.Nucleus.EndThreadService | src/SSI/services/terminate_thread.c:37-52 | ends the process for its only thread, else the thread |
| Nucleus.Nucleus.SetManagerService | src/SSI/services/setmgr.c:2-20 | NULL is refused, a set manager costs the process its life, an unset one is set |
| Nucleus.Nucleus.DoIoService | src/SSI/services/do_io.c:5-36 | counts and fills the slot; panics for another device or a second request |
| Nucleus.Nucleus.ServeRequest | src/SSI/ssi.c:50-108 | one round of the SSI's switch with its reply, keeping the machine's invariant |
| Nucleus.Nucleus.Step | src/SSI/ssi.c:43-110 | any enabled step, run on the pointers, is the machine's step and keeps every invariant |
| Nucleus.Nucleus.RunSteps | src/SSI/ssi.c:43-110 | a whole run of the machine on the pointers ends in the state that the run gives |
| Safety.StepKeeps | src/handlers/syscall.c:54-132 | every step of threads, interrupts and services keeps `Machine.Inv`: list shapes, status against queue, no lost wake-up, tree, counters |
| Safety.RunKeeps | src/SSI/ssi.c:43-110 | the invariant holds after every run |
| Preserve.SendKeeps | src/handlers/syscall.c:70-96 | send keeps status, queue membership and no lost wake-up |
| Preserve.SysRecvKeeps | src/handlers/syscall.c:98-132 | every receive keeps them exactly unless it blocks on an address that is no descriptor |
| Forgotten.StaysForsaken | src/handlers/syscall.c:119-122 | over every run, whoever blocks on an unused descriptor stays exactly as it is, without an error, while it lives and the descriptor is not allocated |
| Traces.ClientForsaken | src/handlers/syscall.c:119-122 | two steps after the start the first client has done so, and the machine is deadlocked |
| Preserve.PreemptKeeps | src/handlers/interrupts.c:40-46 | requeueing the running thread keeps them |
| FastPath.FastRefinesSlow | src/handlers/syscall.c:37-87 | direct delivery equals append, `msgq_get` and wake-up, up to the order of free slots |
| Effects.SendReturns | src/handlers/syscall.c:157-165 | a1 is 0 exactly when the message was handed over or queued, which depends on status, awaited sender and free slots; otherwise it is -1 as an unsigned int and nothing has changed |
| Effects.SendCells | src/handlers/syscall.c:37-47 | a send writes the payload into the cell of a receiver that waits for it, if that is not NULL, and no other cell |
| Effects.ReceiveCells | src/handlers/syscall.c:98-132 | a receive writes the payload into its cell if that is not NULL and a message matches, and no other cell; a1 holds the sender; a blocked receiver keeps its cell |
| Effects.TerminalRestores | src/handlers/interrupts.c:67-77 | a terminal interrupt leaves the interrupted thread running with its registers |
| Effects.TerminalReply | src/handlers/interrupts.c:60-75 | the client in the slot is ready with the SSI in a1 and an empty payload, and runs at once if the processor was idle |
| Mail.MsgGetPending | src/mikabooq.c:300-340 | a receive takes the oldest payload of its sender and leaves every other pair's pending payloads |
| Fifo.StepFifo | src/handlers/syscall.c:70-132 | per pair of live threads and step: pending, then sent, equals received, then pending |
| Fifo.RunFifo | src/handlers/syscall.c:70-132 | the same over every run: exactly once, in order |
| Delivery.GotIsFound | src/handlers/syscall.c:37-47 | a step delivers at most one message per pair; the receiver finds its sender in a1 and, exactly if the cell is not overwritten in the same step, its payload |
| Traces.PayloadClobbered | src/handlers/syscall.c:98-103 | a run from the first state after which the next request of the client is overwritten in the cell of the SSI |
| Promises.PoliteGotIsFound | src/handlers/syscall.c:37-47 | under the client protocol every message received is found with its payload |
| Termination.DrainKeeps | src/SSI/services/terminate_thread.c:6-8 | draining returns exactly the victim's slots to the pool and keeps the invariant |
| Termination.WakeKeeps | src/SSI/services/terminate_thread.c:16-20 | all waiters, in order, go behind the ready queue with errno 1 and no sender; nothing else changes |
| Termination.WakeCells | src/SSI/services/terminate_thread.c:16-20 | waking clears the payload cells of those woken and writes no other |
| Termination.KillKeeps | src/SSI/services/terminate_thread.c:3-34 | termination completes: `thread_free` returns 0, all slots come back, nobody waits for the victim, every list is accounted for |
| Effects.FreeCodes | src/mikabooq.c:169-196 | -1 for messages left, -2 for waiters left, both without effect; else 0 and a clean descriptor that keeps its saved registers |
| Subtree.KillReaps | src/SSI/services/terminate_thread.c:3-34 | one thread is gone; survivors keep order, registers, messages and cells unless they waited for it |
| Subtree.CleanFacts | src/SSI/services/terminate_process.c:10-20 | cleaning a victim's request touches messages of the victim only |
| Subtree.KillTreeKeeps | src/SSI/services/terminate_process.c:28-53 | after the recursion the process has no threads or children and is freed, and whatever is gone was in its subtree |
| Subtree.TreeGoneExact | src/SSI/services/terminate_process.c:28-53 | then exactly the subtree is gone, the root aside |
| Endings.EndProcessExact | src/SSI/services/terminate_process.c:28-58 | exactly the subtree and its threads go; exactly the bereaved are woken, behind the surviving ready queue, with errno 1 and NULL; mail between survivors and all other cells stay |
| Wakeups.EndProcessOrder | src/SSI/services/terminate_process.c:34-50 | the ready queue afterwards: the old one, then those who waited for each victim, victim by victim and in waiting order, less the dead; the victims are exactly the threads that are gone, first those of the process in list order |
| Endings.EndThreadExact | src/SSI/services/terminate_thread.c:37-52 | ends the process exactly when the thread was its last one, else only the thread; no process is left without threads |
| Endings.OnlyThread | src/SSI/services/terminate_thread.c:41-44 | `list_is_only` on the links means that no other thread belongs to the process |
| Creation.CreateThreadEffect | src/SSI/services/create_thread.c:2-13 | exactly one clean ready thread is added, or nothing changes |
| Creation.RollbackEffect | src/SSI/services/create_process.c:13-17 | the rollback always succeeds and restores everything but the order of the free list |
| Creation.CreateProcessEffect | src/SSI/services/create_process.c:3-21 | all or nothing: fails exactly without free process or thread, else one process with one thread is added |
| Effects.ThreadCreated | src/SSI/services/create_thread.c:18-21 | the new thread joins the process of the applicant, with the given state; nothing happens exactly when no descriptor is free |
| Effects.AddrFaithful | src/SSI/ssi.c:54-58 | NULL is 0 and different threads have different addresses |
| Effects.ThreadReply | src/SSI/ssi.c:57-59 | the client finds NULL in its cell exactly when no descriptor is free, and otherwise the address of the one new thread |
| Effects.ProcessReply | src/SSI/ssi.c:54-56 | the client finds NULL exactly when a pool is empty, and otherwise the address of the one new thread, the founder of a new child process |
| Effects.QueryReply | src/SSI/ssi.c:51-53 | the client finds the answer in its cell and the SSI in a1 |
| Managers.TreeIsRooted | src/mikabooq.c:62-97 | every allocated process reaches the root by parent links, without cycles; its children list holds exactly its children, and the free list exactly the free processes |
| Managers.StepPcb | src/SSI/services/setmgr.c:2-20 | a step leaves a process record alone, frees it, allocates it blank, or sets one manager that was not set |
| Managers.MgrFields | src/SSI/services/setmgr.c:22-35 | the three services store three different fields |
| Managers.SetMgrStores | src/SSI/services/setmgr.c:16-18 | exactly that one field of the one record changes, and the manager is the reply |
| Effects.ManagerReply | src/SSI/ssi.c:66-80 | the client finds NULL, or the manager with that one field set, or has been ended because it was set |
| Managers.WriteOnce | src/SSI/services/setmgr.c:2-20 | while a process stays allocated, a manager once set never changes, nor does the parent |
| Managers.NoReplyMeansTerminated | src/SSI/services/setmgr.c:2-20 | no reply exactly when the applicant has been terminated, exactly when the manager was set; free processes have none |
| Requests.KillTreeRequests | src/SSI/services/terminate_process.c:28-53 | terminating a subtree leaves in the SSI mailbox only requests of live blocked clients, one each |
| Protocol.StepSsi | src/SSI/ssi.c:43-110 | every polite step keeps the client protocol |
| Protocol.PoliteRunSafe | src/SSI/ssi.c:43-110 | over every polite run the SSI only ever serves live clients that are blocked on it |
| Protocol.TerminalSsi | src/handlers/interrupts.c:61-65 | the send on behalf of the SSI never fails, as the comment there says |
| Ssi.EndsExactly | src/SSI/ssi.c:50-108 | serving a request ends exactly the threads that can be told beforehand: the subtree, the applicant alone, or nobody |
| Promises.StepStrands | src/nucleus.h:39-85 | a polite step leaves a client waiting in vain exactly if it was already, or the step refuses its request; it stays so for life |
| Promises.RunStrands | src/nucleus.h:39-85 | over every polite run a client waits in vain exactly if one of its requests was refused |
| Promises.ExactlyOneRequest | src/SSI/ssi.c:43-110 | every client waiting not in vain has exactly one request: queued, in the hands of the SSI, or at the terminal |
| Response.StepOrder | src/SSI/ssi.c:48 | a step keeps the order of the requests of live clients and moves none back; a receive moves each forward or takes up the first |
| Response.BoundedResponse | src/SSI/ssi.c:43-110 | over every polite run a client with k requests in front of its own is taken up within k + 1 receives of the SSI |
| Response.ArrivalOrder | src/SSI/ssi.c:43-110 | of two clients the one whose request stands in front is taken up first |
| Traces.ClientStranded | src/nucleus.h:39-47 | the run that uses up the message pool and strands a client |
| Traces.StrandedFromStart | src/nucleus.h:39-47 | the first state leads there |
| Stale.LeftBehind | src/SSI/services/terminate_process.c:10-43 | what exactly a victim leaves in the SSI mailbox |
| Stale.CleanedExactly | src/SSI/services/terminate_process.c:10-20 | mailbox by mailbox: one message of the victim is taken, from the SSI or from its system manager, also when it waits for its program manager; everything else stays |
| Stale.StaleExactlyWhen | src/SSI/services/terminate_process.c:10-43 | the same for one victim and the mailbox that the code searches |
| Stale.PreemptedRequestGoesStale | src/SSI/services/terminate_process.c:30-43 | a client preempted after the send of its request is off the processor with the request queued, and killing it then leaves the request behind |
| Stale.ProcessStaleExactlyWhen | src/SSI/services/terminate_process.c:28-58 | after the service a request of a dead thread stays exactly when the thread had more queued than the one cleaned for a thread blocked on the SSI other than the applicant; survivors keep all |
| Traces.DeadApplicant | src/SSI/services/terminate_process.c:28-53 | the five-step run with two clients of one process that ends with the SSI holding the request of a dead thread, which it cannot serve |
| Traces.SpawnsSibling | src/SSI/services/create_thread.c:2-21 | a run from the first state makes the two clients |
| Traces.StaleFromStart | src/SSI/services/terminate_process.c:28-53 | so that situation is reached from the first state |
| Conserve.EveryRecordHomed | src/mikabooq.c:33-248 | each message, descriptor and process is on exactly one of its lists; scheduled exactly when live and not running |
| Conserve.MessagesConserved | src/mikabooq.c:241-349 | free slots and queued messages add up to the pool |
| Conserve.ThreadsConserved | src/mikabooq.c:140-188 | free and owned descriptors add up to the pool |
| Conserve.ProcessesConserved | src/mikabooq.c:33-97 | free processes and children add up to the pool without the root |
| Conserve.CountIsLive | src/scheduler.c:24-25 | `thread_count` is one more than the number of allocated descriptors |
| Idle.VerdictsSound | src/scheduler.c:95-106 | shutdown exactly when only the SSI exists; deadlock exactly when others exist and the I/O count reads 0; all are blocked with nothing they would accept |
| Idle.StuckForever | src/scheduler.c:95-106 | from a stuck state nothing ever runs again, whatever the hardware does |
| Idle.VerdictIsFinal | src/scheduler.c:95-106 | the shutdown verdict is final; the deadlock verdict is wrong exactly when a live thread is in the I/O slot and the count has wrapped to 0 |
| Traces.DeadlockVerdictWraps | src/scheduler.c:101-105 | the run from the first state, 2^32 I/O requests long, that ends in a deadlock verdict with the terminal about to answer |
| Idle.TickWhileWaiting | src/scheduler.c:106-116 | an enabled timer tick fails the assertion exactly when the processor waits for I/O |
| Traces.IdleTickFails | src/scheduler.c:106-116 | the run from the first state, with one I/O request and a tick, that fails it |
| Fair.StepForward | src/handlers/interrupts.c:38-49 | no step moves a surviving ready thread back; a dispatch moves it forward |
| Fair.BoundedWaiting | src/handlers/interrupts.c:38-49 | a thread with k others before it runs within k + 1 dispatches of any run in which it lives |
| Fair.TicksRotate | src/handlers/interrupts.c:38-49 | i ticks rotate the running and ready threads by i places and change nobody's registers |
| Fair.FullRound | src/handlers/interrupts.c:38-49 | a full round of ticks restores who runs, the queue and all registers |
| Addresses.StepInPools | src/SSI/services/setmgr.c:2-20 | the kernel never stores a thread address outside its descriptors unless a request named one |

## Left out

- Stale.ProcessStaleExactlyWhen: for threads whose process has not named the SSI itself as its system manager; with such a manager the cleaned mailbox depends on the order in which the victims go.
- WAIT_FOR_CLOCK, `t_wait4clock` and `update_clock`: the service enqueues a thread whose scheduling link may already be on a list, so it does not keep the queue invariant as written.
- `syscall_other` and `__trap_h`: they put a thread on `blockedq` with its status still ready, which the code marks as a FIXME and a HACK.
- Stale requests in the mailboxes of managers: what one cleaning takes out is exact (`Stale.CleanedExactly`), but nothing is claimed about what remains there over a run.
- Invariant.CoreInv: does not say that the sender of every queued message is live: only requests to the SSI are cleaned.
- Nucleus.Nucleus.LoadSsi: the two list heads of the descriptor are initialised with the other static heads, and only the one I/O slot in use is cleared.
- Nucleus.Nucleus.IntervalTimer: CPU time and the pseudo-clock are not counted.
- Nucleus.Nucleus.Acknowledge: the acknowledgement to the device is not modelled.
- Nucleus.Nucleus.DoIoService: only the one slot the kernel uses, that of terminal 0; the device command is not modelled.
- Nucleus.Nucleus.ServeRequest: the request structure that the payload points to is a parameter of the step, and the services that only read (errno, process and thread identifiers, CPU time) are one case with an arbitrary reply.
- Fair.TicksRotate: stated for rounds of client threads, since the SSI masks the timer while it runs.
- Protocol.PoliteRunSafe: assumes that a client request is one step; `Traces.DeadApplicant` shows that this is needed.
- `thread_count` is an unbounded integer; it never exceeds the number of descriptors. `soft_block_count` wraps as in C.
- Processor state is reduced to a1, a3 and the payload cells; computation of a thread may set them to anything. The program counter, stack pointers, status register, privilege check, timers, device registers, interrupt lines, CPU-time accounting and debug prints are not modelled.
- Records are values in arrays indexed by position, and an index outside a pool reads as an unused record; the list links are modelled apart from the other fields.
- Freed descriptors keep stale list links; the model only says that a freed descriptor is on the free list and on no scheduling list.
- `Kernel.KillKids` carries a height of the process tree to justify the recursion; the invariant makes its guard always true.
- `msgq_add_head`, `list_prev`, `list_is_last`, the reverse iterators, `src/bitmap.h` and the formatting code in `src/syslib.c`: unused by the modelled routines.
