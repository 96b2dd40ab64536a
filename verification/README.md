# CPU scheduler of the multithreaded OS simulator, in Dafny

This project models the scheduler that `src/student.c` plugs into the OS
simulator. The simulator owns the CPUs, the process records and the clock, and
calls the scheduler's event handlers. The scheduler has three parts:

- **The ready queue.** A singly linked FIFO list of process control blocks.
  It is held in the globals `head` and `tail` and threaded through each
  record's `next` field. `fifo_enqueue` appends at the tail. `fifo_dequeue`
  removes the head, or returns null on an empty queue.
- **The current-process table and the dispatcher.** `current` has one slot per
  CPU. `schedule(cpu)` dequeues a process, marks it RUNNING, writes it (or
  null, meaning the idle process) into `current[cpu]`, and hands it with the
  global `timeslice` to the simulator's context switch.
- **The event handlers.** They drive the five-state process machine:
  - `idle` waits for a non-empty queue and then dispatches.
  - `preempt` sends the running process back to the tail, then dispatches.
  - `yield` makes the running process WAITING, then dispatches.
  - `terminate` makes the running process TERMINATED, then dispatches.
  - `wake_up` makes a process READY and appends it.

`scheduler.dfy` (module `CpuScheduler`) holds the model. Its two classes
mirror the C code:

- `Pcb` is a record with a mutable `state` and `next`.
- `Scheduler` holds the globals: `head`, `tail`, the array `current` and
  `timeslice`.

Two ghost fields give the abstract view:

- `queue` is the ready queue as a sequence, front first.
- `procs` is every process the scheduler has been handed.

`QueueValid()` ties the linked list to `queue`:

- `head` and `tail` are the first and last elements.
- Each record's `next` is its successor.
- The tail links to null.
- No record appears twice.

`StatesAgree` states the invariants between the queue, the table and the
process states:

- A process is queued exactly when it is READY.
- A CPU slot holds only a RUNNING process, and no process sits in two slots.
- Every RUNNING process sits in some slot.

`Valid()` is both together. Every handler requires `Valid()` and
re-establishes it. One consequence is proved as a lemma: there are never
more RUNNING processes than CPUs.

The dispatcher's contract is weaker: its own slot may hold anything, because
`preempt`, `yield` and `terminate` change the occupant's state before calling
it.

Each handler runs as one atomic step. What the dispatcher passes to the
context switch comes back as a `ContextSwitch(cpu, process, timeslice)`
value.

`scenarios.dfy` (module `SchedulerScenarios`) drives the handlers through
short event sequences. It checks what their contracts alone imply:

- Processes admitted as p1, p2, p3 run in that order.
- An idle CPU on an empty queue takes no step, and after a wake-up it runs
  the woken process.
- A preempted process with an otherwise empty queue is dispatched again.
  With another process waiting, the two alternate.

## Model

| member | source | states |
|---|---|---|
| `CpuScheduler.Transition` | src/student.c:201-218 | The edges of the five-state diagram: no edge leads back into NEW, none leaves TERMINATED, and none changes nothing |
| `CpuScheduler.Pcb.constructor` | src/student.c:57-60 | A process record as the scheduler sees it: a state and a `next` link, which starts out null |
| `CpuScheduler.Scheduler.StatesAgree` | src/student.c:25-39 | Outside the slots in `free`: a known process is queued iff it is READY, each slot holds a RUNNING process, no process sits in two slots, every RUNNING process sits in a slot; consequently no occupant of those slots is queued |
| `CpuScheduler.Scheduler.Valid` | src/student.c:25-60 | The list is well formed and the states agree with the queue and every slot; consequently every queued process is READY and no slot occupant is queued |
| `CpuScheduler.Scheduler.QueueValid` | src/student.c:52-60 | In a well-formed list, `head` and `tail` are null together, and exactly when the ready queue is empty; the list holds the queued processes once each, in order, and the tail links to null |
| `CpuScheduler.Scheduler.FollowChain` | src/student.c:52-60 | Following `next` k times from the i-th queued record reaches the (i+k)-th, and one step past the tail reaches null |
| `CpuScheduler.Scheduler.HeadChain` | src/student.c:38-60 | The chain head -> next -> ... -> NULL lists the ready queue front to back and then ends |
| `CpuScheduler.Scheduler.IsEmpty` | src/student.c:163 | The test `head == NULL` holds exactly when the ready queue is empty |
| `CpuScheduler.Scheduler.RunningBounded` | src/student.c:26-34 | In every valid state there are at most as many RUNNING processes as CPUs, since each sits in its own slot of `current` |
| `CpuScheduler.Scheduler.constructor` | src/student.c:313-316 | Startup: `current` has one null (idle) slot per CPU, the ready queue is empty, the configured timeslice is kept, and the invariants hold |
| `CpuScheduler.Scheduler.Enqueue` | src/student.c:66-84 | Appends: the queue becomes old queue + [p], `tail == p`, `p.next == null`; on an empty queue `head == p`; otherwise the old tail links to p and `head` is unchanged; no other record's `next` and no state changes; the list stays well formed |
| `CpuScheduler.Scheduler.Dequeue` | src/student.c:95-110 | On an empty queue returns null and leaves `head`/`tail` unchanged; otherwise returns the old front and the queue becomes its old tail; a one-element queue ends with `head == tail == null`; the removed record still links to the new head (its `next` is not cleared) |
| `CpuScheduler.Scheduler.Schedule` | src/student.c:131-147 | Sets `current[cpu]` to the dequeued process (now RUNNING, by the dispatch edge) or to null on an empty queue; passes exactly that process and `timeslice` to the context switch; no other slot, no other state and no `next` changes; re-establishes `Valid()` |
| `CpuScheduler.Scheduler.Idle` | src/student.c:157-180 | On a CPU running the idle process: with an empty queue nothing changes (the wait continues); otherwise the front of the queue is dispatched on that CPU as by `Schedule` |
| `CpuScheduler.Scheduler.Preempt` | src/student.c:190-200 | The preempted process is appended at the tail before dispatch: old queue + [preempted] == [dispatched] + new queue; with an otherwise empty queue the same process runs again, otherwise it is READY and queued; other slots and states unchanged |
| `CpuScheduler.Scheduler.Yield` | src/student.c:226-234 | The running process becomes WAITING (a diagram edge) and is not in the ready queue; the front of the queue, or the idle process, is dispatched; other slots and states unchanged |
| `CpuScheduler.Scheduler.Terminate` | src/student.c:241-249 | The running process becomes TERMINATED (a diagram edge) and is not in the ready queue; the front of the queue, or the idle process, is dispatched; other slots and states unchanged |
| `SchedulerScenarios.AdmitInOrder` | src/student.c:268-282 | Three NEW processes woken in turn on an empty queue are queued in that order, with no CPU slot changed (the FIFO half of the scenario in which they then run in that order) |
| `CpuScheduler.Scheduler.WakeUp` | src/student.c:268-282 | A NEW or WAITING process becomes READY (a diagram edge) and is appended at the tail; no CPU slot and no other process state changes; `Valid()` is preserved |

## Left out

- Concurrency is not modelled: the two mutexes, the condition variable, and
  its signal and wait. Each handler is one atomic step.
- `Idle` does not block. It models the wait on an empty queue as a step that
  changes nothing and returns `None`. The wake-up it waits for is a later
  `WakeUp` or `Preempt`, after which `Idle` dispatches.
- `context_switch`, `force_preempt` and `start_simulator` belong to the
  simulator library (`os-sim.h`), which is not part of this model.
  `context_switch`'s arguments are returned as a `ContextSwitch` value.
- The longest-remaining-time-first policy is not implemented in the code. The
  `-l` flag is never parsed. The policy branch in `wake_up` is empty, and it
  tests the round-robin tag. So `WakeUp` never preempts and `scheduling_algo_type`
  is not modelled. Round-robin differs from FIFO only in the value of
  `timeslice`, a constructor parameter.
- `main`'s command-line parsing and usage message are not modelled
  (`strtoul`, `atoi`, `strcmp`, `fprintf`). The constructor models only the
  allocation of `current` and the chosen timeslice.
- In C, `current` comes from `malloc` and its slots are never initialised.
  The constructor starts every slot at null, the idle process.
- `pcb_t`'s other fields (identifier, name, timing data) are not modelled.
  The scheduler reads and writes only `state` and `next`.
- `src/student.h` only declares prototypes. They disagree with the
  definitions: `fifo_dequeue` takes a parameter there, and both queue
  functions are `static` in the `.c` file.
- Handler preconditions follow what the C code dereferences or relies on:
  - `Preempt`, `Yield` and `Terminate` require `current[cpu] != null`, since
    the code dereferences it unchecked.
  - `Idle` requires `current[cpu] == null`, since the simulator runs it only on
    a CPU that runs the idle process.
  - `WakeUp` requires a NEW or WAITING process. These are the two states the
    state diagram leads into READY from outside the dispatcher. Waking a
    process that is already queued would drop the processes queued behind
    it from the list.
- The handlers set READY before calling `fifo_enqueue`, which does not set it
  itself. `schedule` always passes the global `timeslice`, which is -1 unless
  `-r` is given. There is no LRTF ordering or forced preemption.
- A TERMINATED process is never queued again. No handler moves a process out
  of TERMINATED. Every handler states which process states it changes, and
  `WakeUp` accepts only NEW or WAITING. No separate lemma states this for
  arbitrary event sequences.
