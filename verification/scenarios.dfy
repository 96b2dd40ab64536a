/**
 * Clients of the scheduler that drive its handlers through short event
 * sequences and check what the handlers' contracts alone let them conclude.
 */
module SchedulerScenarios {
  import opened CpuScheduler

  /** Three processes admitted in the order p1, p2, p3 run in that order on a
      single CPU, and the CPU goes idle once the last one terminates. */
  method FifoDispatchOrder()
  {
    var s := new Scheduler(1, -1);
    var p1 := new Pcb(New);
    var p2 := new Pcb(New);
    var p3 := new Pcb(New);
    AdmitInOrder(s, p1, p2, p3);
    RunToCompletion(s, p1, p2, p3);
  }

  /** Waking three new processes on an empty queue queues them in that order. */
  method AdmitInOrder(s: Scheduler, p1: Pcb, p2: Pcb, p3: Pcb)
    requires s.Valid() && s.queue == [] && p1.state == p2.state == p3.state == New
    requires p1 != p2 && p1 != p3 && p2 != p3
    modifies s, p1, p2, p3
    ensures s.Valid() && s.queue == [p1, p2, p3]
    ensures forall i :: 0 <= i < s.current.Length ==> s.current[i] == old(s.current[i])
  {
    s.WakeUp(p1);
    s.WakeUp(p2);
    s.WakeUp(p3);
  }

  /** On one idle CPU with p1, p2, p3 queued, each termination dispatches the
      next process in queue order. */
  method RunToCompletion(s: Scheduler, p1: Pcb, p2: Pcb, p3: Pcb)
    requires s.Valid() && s.current.Length == 1 && s.current[0] == null
    requires s.queue == [p1, p2, p3]
    modifies s, s.current, p1, p2, p3
  {
    var first := s.Idle(0);
    assert first == Some(ContextSwitch(0, p1, s.timeslice)) && s.queue == [p2, p3];
    var next := s.Terminate(0);
    assert next.process == p2 && s.queue == [p3];
    next := s.Terminate(0);
    assert next.process == p3 && s.queue == [];
    next := s.Terminate(0);
    assert next.process == null && p1.state == Terminated && p2.state == Terminated;
  }

  /** A CPU that goes idle on an empty queue takes no step; once a process
      wakes up, the next idle step dispatches it on that CPU. */
  method IdleThenWakeUp()
  {
    var s := new Scheduler(2, -1);
    var p := new Pcb(Waiting);
    var blocked := s.Idle(1);
    assert blocked == None;
    s.WakeUp(p);
    var dispatched := s.Idle(1);
    assert dispatched == Some(ContextSwitch(1, p, -1));
    assert s.current[1] == p && s.current[0] == null && p.state == Running;
  }

  /** Under round-robin, a process whose timeslice expires while the ready
      queue is empty is dispatched again; with another process waiting, the
      two alternate and the preempted one goes to the tail. */
  method PreemptRoundRobin()
  {
    var s := new Scheduler(1, 50);
    var a := new Pcb(New);
    var b := new Pcb(New);
    s.WakeUp(a);
    var cs := s.Idle(0);
    var again := s.Preempt(0);
    assert again == ContextSwitch(0, a, 50) && a.state == Running;
    s.WakeUp(b);
    var other := s.Preempt(0);
    assert other.process == b && s.queue == [a] && a.state == Ready;
    var back := s.Yield(0);
    assert back.process == a && b.state == Waiting && s.queue == [];
  }
}
