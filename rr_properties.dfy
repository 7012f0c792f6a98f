/**
 * What the Round-Robin policy guarantees over sequences of calls: FIFO
 * order of dispatch, the quantum countdown, rotation of the ready queue,
 * conservation of process ids, and what a reset restores.
 */
module RoundRobinProperties {
  import opened RoundRobin

  /** The states and outputs of a run of calls. */
  datatype Trace<T> = Trace(final: Sched, outputs: seq<T>)

  /** `newProcess` for each id of `pids`, in order. */
  function AdmitAll(s: Sched, pids: seq<Pid>): (r: Sched)
    decreases |pids|
  {
    if pids == [] then s else AdmitAll(Admitted(s, pids[0]), pids[1..])
  }

  /** `n` successive `dispatch` calls, with the ids they return. */
  function DispatchMany(s: Sched, n: nat): (r: Trace<Pid>)
    decreases n
  {
    if n == 0 then Trace(s, [])
    else
      var d := Dispatched(s);
      var rest := DispatchMany(d.next, n - 1);
      Trace(rest.final, [d.pid] + rest.outputs)
  }

  /** `n` successive `preempt` calls, with the signals they return. */
  function PreemptMany(s: Sched, n: nat): (r: Trace<bool>)
    decreases n
  {
    if n == 0 then Trace(s, [])
    else
      var p := Preempted(s);
      var rest := PreemptMany(p.next, n - 1);
      Trace(rest.final, [p.expired] + rest.outputs)
  }

  /** One full time slice: dispatch, then one `preempt` per quantum unit. */
  function Slice(s: Sched): (r: Sched) {
    PreemptMany(Dispatched(s).next, if s.quantum < 0 then 0 else s.quantum).final
  }

  /** `k` full time slices in a row. */
  function Slices(s: Sched, k: nat): (r: Sched) {
    if k == 0 then s else Slice(Slices(s, k - 1))
  }

  /** The process ids the policy holds: those in the ready queue and the
      running one. IDLE is not a process, so it is counted nowhere, neither
      in the running slot nor in the queue (where `newProcess(IDLE)` or a
      `preempt` on an idle CPU can put it). */
  function Pool(s: Sched): (r: multiset<Pid>) {
    multiset(s.queue)[IDLE := 0] + if s.running == IDLE then multiset{} else multiset{s.running}
  }

  // ---------------------------------------------------------------------
  // FIFO order

  /** Admitting a list of processes appends exactly that list to the queue
      and leaves the running id and both clock values alone. */
  lemma {:induction false} AdmitAllAppends(s: Sched, pids: seq<Pid>)
    ensures AdmitAll(s, pids) == s.(queue := s.queue + pids)
    decreases |pids|
  {
    if pids != [] {
      AdmitAllAppends(Admitted(s, pids[0]), pids[1..]);
      assert s.queue + [pids[0]] + pids[1..] == s.queue + pids;
    }
  }

  /** Dispatching as many times as there are waiting processes returns them
      in queue order, empties the queue, and leaves the last one running
      with a fresh quantum. */
  lemma {:induction false} DispatchManyDrains(s: Sched)
    ensures DispatchMany(s, |s.queue|).outputs == s.queue
    ensures DispatchMany(s, |s.queue|).final.queue == []
    ensures DispatchMany(s, |s.queue|).final.quantum == s.quantum
    ensures s.queue != [] ==>
              DispatchMany(s, |s.queue|).final.running == s.queue[|s.queue| - 1]
              && DispatchMany(s, |s.queue|).final.clock == s.quantum - 1
    decreases |s.queue|
  {
    if s.queue != [] {
      var d := Dispatched(s);
      DispatchManyDrains(d.next);
      assert [s.queue[0]] + s.queue[1..] == s.queue;
    }
  }

  /** FIFO order: after `newProcess(p1) … newProcess(pn)` on an empty queue,
      n dispatches return p1 … pn in arrival order. */
  lemma FifoOrder(s: Sched, pids: seq<Pid>)
    requires s.queue == []
    ensures DispatchMany(AdmitAll(s, pids), |pids|).outputs == pids
    ensures DispatchMany(AdmitAll(s, pids), |pids|).final.queue == []
  {
    AdmitAllAppends(s, pids);
    assert AdmitAll(s, pids).queue == pids;
    DispatchManyDrains(AdmitAll(s, pids));
  }

  /** On an empty queue every dispatch returns IDLE and changes nothing, no
      matter how often it is repeated. */
  lemma {:induction false} IdleDispatchIdempotent(s: Sched, n: nat)
    requires s.queue == []
    ensures DispatchMany(s, n).final == s
    ensures forall i :: 0 <= i < |DispatchMany(s, n).outputs| ==> DispatchMany(s, n).outputs[i] == IDLE
    ensures |DispatchMany(s, n).outputs| == n
  {
    if n > 0 {
      IdleDispatchIdempotent(s, n - 1);
    }
  }

  // ---------------------------------------------------------------------
  // The quantum clock

  /** From a clock reading of c >= 0 the next c calls of `preempt` return
      false and the one after returns true, re-enqueueing the running
      process and idling the CPU. */
  lemma {:induction false} PreemptAfterCountdown(s: Sched)
    requires s.clock >= 0
    ensures PreemptMany(s, s.clock + 1).outputs == seq(s.clock, _ => false) + [true]
    ensures PreemptMany(s, s.clock + 1).final
              == s.(queue := s.queue + [s.running], running := IDLE, clock := 0)
    decreases s.clock
  {
    if s.clock > 0 {
      var next := Preempted(s).next;
      PreemptAfterCountdown(next);
      assert [false] + seq(next.clock, _ => false) == seq(s.clock, _ => false);
    }
  }

  /** Quantum fairness: after a successful dispatch with quantum Q >= 1, the
      next Q-1 calls of `preempt` return false and the Q-th returns true
      (Q = 3 gives false, false, true; Q = 1 gives true at once). The
      dispatched process is then back at the tail of the queue. */
  lemma QuantumFairness(s: Sched)
    requires s.queue != [] && s.quantum >= 1
    ensures PreemptMany(Dispatched(s).next, s.quantum).outputs
              == seq(s.quantum - 1, _ => false) + [true]
    ensures PreemptMany(Dispatched(s).next, s.quantum).final
              == s.(queue := s.queue[1..] + [s.queue[0]], running := IDLE, clock := 0)
  {
    PreemptAfterCountdown(Dispatched(s).next);
  }

  /** With a quantum below 1 (the constructor stores it unchecked) dispatch
      leaves the clock negative; `preempt` compares the clock with zero and
      otherwise decrements it, so it never fires. */
  lemma {:induction false} NegativeClockNeverPreempts(s: Sched, n: nat)
    requires s.clock < 0
    ensures PreemptMany(s, n).outputs == seq(n, _ => false)
    ensures PreemptMany(s, n).final == s.(clock := s.clock - n)
    decreases n
  {
    if n > 0 {
      NegativeClockNeverPreempts(Preempted(s).next, n - 1);
      assert [false] + seq(n - 1, _ => false) == seq(n, _ => false);
    }
  }

  /** Bounded waiting: with quantum Q >= 1, each full time slice moves the
      head of the queue to its tail, so after k slices the queue is the
      original rotated by k and the next dispatch picks the process that
      was k-th in line: it waited exactly k slices of Q cycles. */
  lemma {:induction false} SlicesRotate(s: Sched, k: nat)
    requires s.queue != [] && s.quantum >= 1 && k <= |s.queue|
    ensures Slices(s, k).queue == s.queue[k..] + s.queue[..k]
    ensures Slices(s, k).quantum == s.quantum
    ensures k < |s.queue| ==> Dispatched(Slices(s, k)).pid == s.queue[k]
  {
    if k > 0 {
      SlicesRotate(s, k - 1);
      var t := Slices(s, k - 1);
      QuantumFairness(t);
      var q := s.queue;
      assert t.queue[0] == q[k - 1];
      assert t.queue[1..] == q[k..] + q[..k - 1];
      assert q[..k - 1] + [q[k - 1]] == q[..k];
    }
    var q := s.queue;
    if k < |q| {
      assert Slices(s, k).queue[0] == q[k];
    }
  }

  // ---------------------------------------------------------------------
  // Conservation of process ids

  /** `newProcess` adds exactly the new id to the ids the policy holds
      (nothing, when the "id" is IDLE). */
  lemma AdmitAddsToPool(s: Sched, pid: Pid)
    ensures Pool(Admitted(s, pid)) == Pool(s) + if pid == IDLE then multiset{} else multiset{pid}
  {
  }

  /** Dispatching on an idle CPU moves an id from the queue to the running
      slot: the held ids are the same. (Dispatching while a process runs
      would overwrite it; the simulator calls dispatch only when idle.) */
  lemma DispatchConservesPool(s: Sched)
    requires s.running == IDLE
    ensures Pool(Dispatched(s).next) == Pool(s)
  {
    if s.queue != [] {
      assert s.queue == [s.queue[0]] + s.queue[1..];
    }
  }

  /** Every `preempt` keeps the held ids: a tick changes no id, and an
      expiry moves the running id to the queue's tail (on an idle CPU it
      enqueues IDLE, which is no process). */
  lemma PreemptConservesPool(s: Sched)
    ensures Pool(Preempted(s).next) == Pool(s)
  {
  }

  // ---------------------------------------------------------------------
  // Reset

  /** A reset agrees with a freshly constructed policy of the same quantum on
      everything but the running id, which `resetPolicy` leaves alone; after
      the same arrivals, the next dispatch returns the same id as in the
      fresh policy, and once it dispatches a process the two states are
      identical. */
  lemma ResetLikeFresh(s: Sched, pids: seq<Pid>)
    ensures Reset(s) == Initial(s.quantum).(running := s.running)
    ensures Dispatched(AdmitAll(Reset(s), pids)).pid == Dispatched(AdmitAll(Initial(s.quantum), pids)).pid
    ensures pids != [] ==>
              Dispatched(AdmitAll(Reset(s), pids)) == Dispatched(AdmitAll(Initial(s.quantum), pids))
  {
    AdmitAllAppends(Reset(s), pids);
    AdmitAllAppends(Initial(s.quantum), pids);
  }
}
