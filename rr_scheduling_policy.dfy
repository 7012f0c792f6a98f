/**
 * The Round-Robin CPU-scheduling policy of the process-scheduling simulator
 * (src/RRSchedulingPolicy.cpp).
 *
 * The policy owns a FIFO ready queue of process ids, the id of the running
 * process, a quantum countdown clock and the configured time-slice length.
 * The module gives the policy twice: as a value `Sched` with one pure step
 * function per operation (the specification the lemmas in
 * RoundRobinProperties reason about), and as the class
 * `RRSchedulingPolicy` whose methods update the four fields in place, each
 * proved to take exactly the step its specification function describes.
 */
module RoundRobin {

  /** Process identifiers are plain `int`s (`typedef int Pid`). */
  type Pid = int

  /** The sentinel "no process" id. Its definition lives in the simulator's
      abstract policy header, which is not part of this model. The model
      takes -1, assuming that the simulator hands out only non-negative ids.
      Every proof holds for any value of IDLE. */
  const IDLE: Pid := -1

  /** The policy's whole state as a value. */
  datatype Sched = Sched(queue: seq<Pid>, running: Pid, clock: int, quantum: int)

  /** What `dispatch` leaves behind and what it returns. */
  datatype DispatchOutcome = DispatchOutcome(next: Sched, pid: Pid)

  /** What `preempt` leaves behind and whether it signalled a preemption. */
  datatype PreemptOutcome = PreemptOutcome(next: Sched, expired: bool)

  /** A freshly constructed policy: the constructor stores the quantum and
      then resets. The running id starts as IDLE. */
  function Initial(simQuantum: int): (r: Sched)
    ensures r.quantum == simQuantum && r.running == IDLE
    ensures Reset(r) == r
  {
    Sched([], IDLE, simQuantum, simQuantum)
  }

  /** `newProcess(pid)`: the arriving process joins the tail of the queue. */
  function Admitted(s: Sched, pid: Pid): (r: Sched)
    ensures |r.queue| == |s.queue| + 1 && r.queue[..|s.queue|] == s.queue && r.queue[|s.queue|] == pid
    ensures r.(queue := s.queue) == s
  {
    s.(queue := s.queue + [pid])
  }

  /** `dispatch()`: IDLE on an empty queue, otherwise the head is removed,
      becomes the running process and gets a fresh quantum, of which the
      dispatch cycle itself already uses one unit. */
  function Dispatched(s: Sched): (r: DispatchOutcome)
    ensures s.queue == [] ==> r.pid == IDLE && r.next == s
    ensures s.queue != [] ==>
              [r.pid] + r.next.queue == s.queue && r.next.running == r.pid && r.next.clock == s.quantum - 1
    ensures r.next.quantum == s.quantum
  {
    if s.queue == [] then
      DispatchOutcome(s, IDLE)
    else
      DispatchOutcome(s.(queue := s.queue[1..], running := s.queue[0], clock := s.quantum - 1), s.queue[0])
  }

  /** `preempt()`: once the clock is at zero the running process goes back to
      the tail of the queue and the CPU becomes idle; before that, one tick
      of the clock. */
  function Preempted(s: Sched): (r: PreemptOutcome)
    ensures r.expired <==> s.clock == 0
    ensures r.expired ==>
              r.next.queue == s.queue + [s.running] && r.next.running == IDLE && r.next.clock == 0
    ensures !r.expired ==> r.next.clock == s.clock - 1 && r.next.(clock := s.clock) == s
    ensures r.next.quantum == s.quantum
  {
    if s.clock == 0 then
      PreemptOutcome(s.(queue := s.queue + [s.running], running := IDLE), true)
    else
      PreemptOutcome(s.(clock := s.clock - 1), false)
  }

  /** `resetPolicy()`: empty queue, full quantum; the running id is kept. */
  function Reset(s: Sched): (r: Sched)
    ensures r.queue == [] && r.clock == s.quantum
    ensures r.quantum == s.quantum && r.running == s.running
  {
    s.(queue := [], clock := s.quantum)
  }

  /** The policy object of the simulator. */
  class RRSchedulingPolicy {
    var queue: seq<Pid>
    var running: Pid
    var clock: int
    const quantum: int

    /** The current state as a value. */
    function Snapshot(): Sched
      reads this
    {
      Sched(queue, running, clock, quantum)
    }

    /** `RRSchedulingPolicy(int simQuantum)`: store the quantum, then reset.
        No check is made on `simQuantum`. The running id is initialised by
        the abstract base class, which is not part of this model; it starts
        as IDLE here. */
    constructor (simQuantum: int)
      ensures quantum == simQuantum
      ensures queue == [] && clock == simQuantum && running == IDLE
      ensures Snapshot() == Initial(simQuantum)
    {
      quantum := simQuantum;
      running := IDLE;
      new;
      ResetPolicy();
    }

    /** `newProcess(pid)`: enqueue at the tail; nothing else changes. No
        check against duplicates or against the running id. */
    method NewProcess(pid: Pid)
      modifies this
      ensures queue == old(queue) + [pid]
      ensures running == old(running) && clock == old(clock)
      ensures Snapshot() == Admitted(old(Snapshot()), pid)
    {
      queue := queue + [pid];
    }

    /** `dispatch()`: hand the CPU to the process that has waited longest. */
    method Dispatch() returns (pid: Pid)
      modifies this
      ensures old(queue) == [] ==>
                pid == IDLE && queue == old(queue) && running == old(running) && clock == old(clock)
      ensures old(queue) != [] ==>
                pid == old(queue)[0] && queue == old(queue)[1..] && running == pid && clock == quantum - 1
      ensures DispatchOutcome(Snapshot(), pid) == Dispatched(old(Snapshot()))
    {
      if queue == [] {
        return IDLE;
      } else {
        running := queue[0];
        queue := queue[1..];
        clock := quantum;
        clock := clock - 1;
        return running;
      }
    }

    /** `preempt()`: called once per simulated CPU cycle while a process runs. */
    method Preempt() returns (expired: bool)
      modifies this
      ensures expired <==> old(clock) == 0
      ensures expired ==> queue == old(queue) + [old(running)] && running == IDLE && clock == 0
      ensures !expired ==> queue == old(queue) && running == old(running) && clock == old(clock) - 1
      ensures PreemptOutcome(Snapshot(), expired) == Preempted(old(Snapshot()))
    {
      if clock == 0 {
        queue := queue + [running];
        running := IDLE;
        return true;
      } else {
        clock := clock - 1;
        return false;
      }
    }

    /** `resetPolicy()`: clear the ready queue and rewind the clock. */
    method ResetPolicy()
      modifies this
      ensures queue == [] && clock == quantum
      ensures running == old(running)
      ensures Snapshot() == Reset(old(Snapshot()))
    {
      queue := [];
      clock := quantum;
    }
  }

  /** An example run through the class: quantum 3, processes 1 and 2. */
  method ExampleRunQuantumThree() {
    var policy := new RRSchedulingPolicy(3);
    policy.NewProcess(1);
    policy.NewProcess(2);
    var pid := policy.Dispatch();
    assert pid == 1;
    var e1 := policy.Preempt();
    var e2 := policy.Preempt();
    var e3 := policy.Preempt();
    assert !e1 && !e2 && e3;
    pid := policy.Dispatch();
    assert pid == 2 && policy.queue == [1];
  }

  /** An example run through the class: quantum 1, a single process 5. */
  method ExampleRunQuantumOne() {
    var policy := new RRSchedulingPolicy(1);
    policy.NewProcess(5);
    var pid := policy.Dispatch();
    assert pid == 5 && policy.clock == 0;
    var expired := policy.Preempt();
    assert expired;
    pid := policy.Dispatch();
    assert pid == 5 && policy.queue == [];
  }
}
