/**
 * The CPU scheduler of the multithreaded OS simulator: a ready queue kept as a
 * singly linked list of process control blocks, a table of the process running
 * on each CPU, the dispatcher, and the event handlers the simulator calls.
 *
 * Every handler is modelled as one atomic step: the two mutexes and the
 * condition variable that serialise them in the C code are not modelled.
 */
module CpuScheduler {

  /** The five states of the process state machine. */
  datatype ProcessState = New | Ready | Running | Waiting | Terminated

  /** The edges of the process state machine. */
  predicate Transition(from: ProcessState, to: ProcessState)
    ensures Transition(from, to) ==> from != to && to != New && from != Terminated
  {
    || (from == New && to == Ready)          // admit
    || (from == Ready && to == Running)      // scheduler dispatch
    || (from == Running && to == Ready)      // time-out
    || (from == Running && to == Waiting)    // I/O or event wait
    || (from == Waiting && to == Ready)      // I/O or event completion
    || (from == Running && to == Terminated) // release
  }

  datatype Option<T> = None | Some(value: T)

  lemma {:induction false} SubsetSize<T>(a: set<T>, b: set<T>)
    requires a <= b
    ensures |a| <= |b|
    decreases a
  {
    if a != {} {
      var x :| x in a;
      SubsetSize(a - {x}, b - {x});
    }
  }

  /** The arguments handed to the simulator's context switch: the CPU, the
      process to run there (null selects the idle process), and the timeslice. */
  datatype ContextSwitch = ContextSwitch(cpu: nat, process: Pcb?, timeslice: int)

  /** A process control block, reduced to the two fields the scheduler writes. */
  class Pcb {
    var state: ProcessState
    var next: Pcb?

    constructor (state: ProcessState)
      ensures this.state == state && next == null
    {
      this.state := state;
      next := null;
    }
  }

  /** The scheduler's global state. */
  class Scheduler {
    // the ready queue: a singly linked list threaded through Pcb.next
    var head: Pcb?
    var tail: Pcb?
    // one slot per CPU: the process it runs, or null for the idle process
    const current: array<Pcb?>
    // the timeslice handed to every context switch (-1 unless round-robin)
    const timeslice: int

    // the ready queue, front first
    ghost var queue: seq<Pcb>
    // every process the scheduler has been handed so far
    ghost var procs: set<Pcb>

    /** The linked list from head to tail holds exactly the processes of
        queue, in order, each once, and the last one links to null. */
    ghost predicate QueueValid()
      reads this, procs
      ensures QueueValid() ==> (head == null <==> tail == null) && (head == null <==> queue == [])
    {
      && (forall i :: 0 <= i < |queue| ==> queue[i] in procs)
      && (forall i, j :: 0 <= i < j < |queue| ==> queue[i] != queue[j])
      && (if queue == [] then head == null && tail == null
          else head == queue[0] && tail == queue[|queue| - 1] && tail.next == null)
      && (forall i :: 0 <= i < |queue| - 1 ==> queue[i].next == queue[i + 1])
    }

    /** The process states agree with the queue and the CPU table, except
        that the slots of the CPUs in free are not looked at: a process is
        queued iff it is READY; a slot holds only a RUNNING process, and no
        process sits in two slots; every RUNNING process sits in some slot. */
    ghost predicate StatesAgree(free: set<int>)
      reads this, procs, current
      ensures StatesAgree(free) ==>
        forall i :: 0 <= i < current.Length && i !in free && current[i] != null ==> current[i] !in queue
    {
      && (forall p :: p in procs ==> (p in queue <==> p.state == Ready))
      && (forall i :: 0 <= i < current.Length && i !in free && current[i] != null ==>
            current[i] in procs && current[i].state == Running)
      && (forall i, j :: 0 <= i < j < current.Length && i !in free && j !in free && current[i] != null ==>
            current[i] != current[j])
      && (forall p :: p in procs && p.state == Running ==>
            exists i :: 0 <= i < current.Length && i !in free && current[i] == p)
    }

    ghost predicate Valid()
      reads this, procs, current
      ensures Valid() ==> forall i :: 0 <= i < |queue| ==> queue[i] in procs && queue[i].state == Ready
      ensures Valid() ==> forall i :: 0 <= i < current.Length && current[i] != null ==> current[i] !in queue
    {
      QueueValid() && StatesAgree({})
    }

    /** Follows the next links steps times from a process the scheduler knows. */
    ghost function Follow(from: Pcb?, steps: nat): Pcb?
      reads this, procs
      decreases steps
    {
      if steps == 0 || from == null || from !in procs then from
      else Follow(from.next, steps - 1)
    }

    /** Following the links from the i-th queued process reaches the
        (i + k)-th, and one step past the tail reaches null. */
    lemma {:induction false} FollowChain(i: nat, k: nat)
      requires QueueValid() && i < |queue| && i + k <= |queue|
      ensures Follow(queue[i], k) == if i + k < |queue| then queue[i + k] else null
      decreases k
    {
      if k > 0 {
        if i + 1 < |queue| {
          FollowChain(i + 1, k - 1);
        }
      }
    }

    /** The chain head -> next -> ... -> null lists the queue front to back. */
    lemma {:induction false} HeadChain(k: nat)
      requires QueueValid() && k <= |queue|
      ensures Follow(head, k) == if k < |queue| then queue[k] else null
    {
      if queue != [] {
        FollowChain(0, k);
      }
    }

    /** The processes sitting in the first n CPU slots. */
    ghost function Occupants(n: nat): set<Pcb>
      reads this, current
      requires n <= current.Length
    {
      if n == 0 then {}
      else Occupants(n - 1) + (if current[n - 1] == null then {} else {current[n - 1]})
    }

    lemma {:induction false} OccupantsBounded(n: nat)
      requires n <= current.Length
      ensures |Occupants(n)| <= n
    {
      if n > 0 {
        OccupantsBounded(n - 1);
      }
    }

    lemma {:induction false} OccupantsHold(i: nat, n: nat)
      requires i < n <= current.Length && current[i] != null
      ensures current[i] in Occupants(n)
      decreases n
    {
      if i < n - 1 {
        OccupantsHold(i, n - 1);
      }
    }

    /** There are never more RUNNING processes than CPUs. */
    lemma RunningBounded()
      requires Valid()
      ensures |set p | p in procs && p.state == Running| <= current.Length
    {
      var running := set p | p in procs && p.state == Running;
      forall p | p in running
        ensures p in Occupants(current.Length)
      {
        var i :| 0 <= i < current.Length && current[i] == p;
        OccupantsHold(i, current.Length);
      }
      SubsetSize(running, Occupants(current.Length));
      OccupantsBounded(current.Length);
    }

    /** The startup state: cpuCount idle CPUs and an empty ready queue. */
    constructor (cpuCount: nat, timeslice: int)
      ensures Valid() && fresh(current)
      ensures current.Length == cpuCount && forall i :: 0 <= i < cpuCount ==> current[i] == null
      ensures queue == [] && procs == {} && this.timeslice == timeslice
    {
      head, tail := null, null;
      current := new Pcb?[cpuCount](_ => null);
      this.timeslice := timeslice;
      queue, procs := [], {};
    }

    /** The emptiness test on head. */
    function IsEmpty(): (b: bool)
      reads this, procs
      requires QueueValid()
      ensures b <==> queue == []
    {
      head == null
    }

    /** Appends p at the tail of the ready queue and clears its link. */
    method Enqueue(p: Pcb)
      requires QueueValid() && p in procs && p !in queue
      modifies this, p, tail
      ensures QueueValid() && procs == old(procs)
      ensures queue == old(queue) + [p]
      ensures tail == p && p.next == null
      ensures old(head) == null ==> head == p
      ensures old(head) != null ==> head == old(head) && old(tail).next == p
      ensures forall q :: q in procs && q != p && q != old(tail) ==> q.next == old(q.next)
      ensures forall q :: q in procs ==> q.state == old(q.state)
    {
      if IsEmpty() {
        head := p;
      } else {
        tail.next := p;
      }
      tail := p;
      p.next := null;
      queue := queue + [p];
    }

    /** Removes and returns the head of the ready queue, or null when it is
        empty. The removed record keeps its link to the new head. */
    method Dequeue() returns (p: Pcb?)
      requires QueueValid()
      modifies this
      ensures QueueValid() && procs == old(procs)
      ensures old(queue) == [] ==> p == null && queue == [] && head == old(head) && tail == old(tail)
      ensures old(queue) != [] ==> p == old(queue[0]) && queue == old(queue[1..])
      ensures |old(queue)| == 1 ==> head == null && tail == null
      ensures p != null ==> p.next == head
    {
      p := null;
      if !IsEmpty() {
        p := head;
        if head.next != null {
          head := head.next;
        } else {
          tail := null;
          head := null;
        }
        queue := queue[1..];
      }
    }

    /** Dispatches the front of the ready queue on cpu, or the idle process
        when the queue is empty. The occupant of cpu's slot is overwritten,
        so the callers have already moved it out of the RUNNING state. */
    method Schedule(cpu: nat) returns (cs: ContextSwitch)
      requires cpu < current.Length && QueueValid() && StatesAgree({cpu})
      modifies this, current, head
      ensures Valid() && procs == old(procs)
      ensures cs == ContextSwitch(cpu, current[cpu], timeslice)
      ensures old(queue) == [] ==> current[cpu] == null && queue == []
      ensures old(queue) != [] ==>
        && current[cpu] == old(queue[0]) && queue == old(queue[1..])
        && current[cpu].state == Running && Transition(old(queue[0].state), Running)
      ensures forall i :: 0 <= i < current.Length && i != cpu ==> current[i] == old(current[i])
      ensures forall q :: q in procs && q != current[cpu] ==> q.state == old(q.state)
      ensures forall q :: q in procs ==> q.next == old(q.next)
    {
      var p := Dequeue();
      if p != null {
        p.state := Running;
      }
      current[cpu] := p;
      cs := ContextSwitch(cpu, p, timeslice);
    }

    /** The idle handler: the CPU waits while the ready queue is empty (a
        step that changes nothing) and otherwise dispatches its front. */
    method Idle(cpu: nat) returns (cs: Option<ContextSwitch>)
      requires Valid() && cpu < current.Length && current[cpu] == null
      modifies this, current, head
      ensures Valid() && procs == old(procs)
      ensures old(queue) == [] ==> cs == None && unchanged(this, current)
      ensures old(queue) != [] ==>
        && cs == Some(ContextSwitch(cpu, old(queue[0]), timeslice))
        && current[cpu] == old(queue[0]) && current[cpu].state == Running
        && queue == old(queue[1..])
      ensures forall i :: 0 <= i < current.Length && i != cpu ==> current[i] == old(current[i])
      ensures forall q :: q in procs && q != current[cpu] ==> q.state == old(q.state)
    {
      if IsEmpty() {
        return None;
      }
      var switched := Schedule(cpu);
      cs := Some(switched);
    }

    /** The timeslice of the process on cpu expired: it goes back to the tail
        of the ready queue and the front of the queue is dispatched. */
    method Preempt(cpu: nat) returns (cs: ContextSwitch)
      requires Valid() && cpu < current.Length && current[cpu] != null
      modifies this, current, current[cpu], tail, head
      ensures Valid() && procs == old(procs)
      ensures cs == ContextSwitch(cpu, current[cpu], timeslice)
      ensures current[cpu] != null && current[cpu].state == Running
      ensures old(queue) + [old(current[cpu])] == [current[cpu]] + queue
      ensures old(queue) == [] ==> current[cpu] == old(current[cpu])
      ensures old(queue) != [] ==> old(current[cpu]).state == Ready
      ensures forall i :: 0 <= i < current.Length && i != cpu ==> current[i] == old(current[i])
      ensures forall q :: q in procs && q != old(current[cpu]) && q != current[cpu] ==> q.state == old(q.state)
    {
      var p := current[cpu];
      p.state := Ready;
      Enqueue(p);
      cs := Schedule(cpu);
    }

    /** The process on cpu blocks for I/O: it becomes WAITING, is not queued,
        and the front of the ready queue is dispatched. */
    method Yield(cpu: nat) returns (cs: ContextSwitch)
      requires Valid() && cpu < current.Length && current[cpu] != null
      modifies this, current, current[cpu], head
      ensures Valid() && procs == old(procs)
      ensures cs == ContextSwitch(cpu, current[cpu], timeslice)
      ensures old(current[cpu]).state == Waiting && old(current[cpu]) !in queue
      ensures Transition(old(current[cpu].state), Waiting)
      ensures old(queue) == [] ==> current[cpu] == null && queue == []
      ensures old(queue) != [] ==>
        current[cpu] == old(queue[0]) && current[cpu].state == Running && queue == old(queue[1..])
      ensures forall i :: 0 <= i < current.Length && i != cpu ==> current[i] == old(current[i])
      ensures forall q :: q in procs && q != old(current[cpu]) && q != current[cpu] ==> q.state == old(q.state)
    {
      var p := current[cpu];
      p.state := Waiting;
      cs := Schedule(cpu);
    }

    /** The process on cpu has finished: it becomes TERMINATED, is not
        queued, and the front of the ready queue is dispatched. */
    method Terminate(cpu: nat) returns (cs: ContextSwitch)
      requires Valid() && cpu < current.Length && current[cpu] != null
      modifies this, current, current[cpu], head
      ensures Valid() && procs == old(procs)
      ensures cs == ContextSwitch(cpu, current[cpu], timeslice)
      ensures old(current[cpu]).state == Terminated && old(current[cpu]) !in queue
      ensures Transition(old(current[cpu].state), Terminated)
      ensures old(queue) == [] ==> current[cpu] == null && queue == []
      ensures old(queue) != [] ==>
        current[cpu] == old(queue[0]) && current[cpu].state == Running && queue == old(queue[1..])
      ensures forall i :: 0 <= i < current.Length && i != cpu ==> current[i] == old(current[i])
      ensures forall q :: q in procs && q != old(current[cpu]) && q != current[cpu] ==> q.state == old(q.state)
    {
      var p := current[cpu];
      p.state := Terminated;
      cs := Schedule(cpu);
    }

    /** A new process is admitted or a waiting one finished its I/O: it
        becomes READY and joins the tail of the ready queue. No CPU slot
        changes. */
    method WakeUp(p: Pcb)
      requires Valid() && (p.state == New || p.state == Waiting)
      modifies this, p, tail
      ensures Valid() && procs == old(procs) + {p}
      ensures p.state == Ready && Transition(old(p.state), Ready)
      ensures queue == old(queue) + [p]
      ensures forall i :: 0 <= i < current.Length ==> current[i] == old(current[i])
      ensures forall q :: q in old(procs) && q != p ==> q.state == old(q.state)
    {
      procs := procs + {p};
      p.state := Ready;
      Enqueue(p);
    }
  }
}
