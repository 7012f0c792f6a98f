# Round-Robin scheduling policy, modelled in Dafny

This project models the Round-Robin (RR) CPU-scheduling policy of a
discrete-event process-scheduling simulator. The policy keeps four pieces of
state: a FIFO ready queue of process ids, the id of the running process, a
quantum countdown clock, and the fixed time-slice length. The simulator calls
four operations on it:

- `newProcess(pid)` puts an arriving process at the tail of the ready queue.
- `dispatch()` hands the CPU to the head of the queue, or returns `IDLE` when
  the queue is empty.
- `preempt()` runs once per CPU cycle. It counts the quantum down and, once
  the clock is at zero, puts the running process back at the tail.
- `resetPolicy()` empties the queue and rewinds the clock.

The project has two files:

- `rr_scheduling_policy.dfy`, module `RoundRobin`.
  - The state as a value, `Sched`, with one pure step function per
    operation: `Initial`, `Admitted`, `Dispatched`, `Preempted`, `Reset`.
  - The class `RRSchedulingPolicy`, whose fields `queue: seq<int>`,
    `running` and `clock` are updated in place by `NewProcess`, `Dispatch`,
    `Preempt` and `ResetPolicy`; `quantum` is a `const` set once by the
    constructor, which then calls `ResetPolicy` as the source does. Each
    method states every field afterwards and proves that `Snapshot()` moved
    by exactly the step its function describes.
  - Two client methods with two example runs (quantum 3 with processes 1, 2;
    quantum 1 with process 5), proved from the class contracts alone.
- `rr_properties.dfy`, module `RoundRobinProperties`: lemmas about runs of
  calls. They cover FIFO order, idle dispatch, the quantum countdown,
  rotation of the queue (bounded waiting), conservation of process ids, and
  what a reset restores.

`IDLE` is defined in the simulator's abstract policy header
(`SchedulingPolicy.hpp`), which is not part of this model. The model takes
`IDLE == -1`. That value is an assumption: the source only declares
`typedef int Pid` (include/RRSchedulingPolicy.hpp:29) and the model assumes
the simulator hands out non-negative ids. Every proof holds for any value
of `IDLE`.

Three behaviours of the code are worth stating outright:

- The constructor stores the quantum without any check
  (src/RRSchedulingPolicy.cpp:37). `NegativeClockNeverPreempts` covers what
  a quantum below 1 leads to.
- `resetPolicy` empties the queue and rewinds the clock but keeps the
  running id (src/RRSchedulingPolicy.cpp:136-145). `ResetLikeFresh` states
  how close a reset comes to a freshly constructed policy.
- `preempt` fires only when the clock is exactly 0
  (src/RRSchedulingPolicy.cpp:111) and otherwise decrements it
  (src/RRSchedulingPolicy.cpp:123). A negative clock therefore never reaches
  0, and `preempt` never fires after a dispatch with a quantum below 1.

## Model

| member | source | states |
|---|---|---|
| RoundRobin.Initial | src/RRSchedulingPolicy.cpp:32-39 | a fresh policy holds the given quantum and an IDLE running id, and a reset leaves it as it is (empty queue, clock equal to the quantum) |
| RoundRobin.Admitted | src/RRSchedulingPolicy.cpp:57-61 | the new queue is one longer, its prefix is the old queue and its last element is the arriving id; every other field is unchanged |
| RoundRobin.Dispatched | src/RRSchedulingPolicy.cpp:75-94 | empty queue: IDLE and the same state; otherwise the returned id followed by the new queue is the old queue, the returned id is running and the clock is `quantum - 1`; the quantum is kept |
| RoundRobin.Preempted | src/RRSchedulingPolicy.cpp:108-127 | fires exactly when the clock is 0, and then the running id is appended to the queue, the CPU is IDLE and the clock stays 0; otherwise only the clock changes, by exactly -1 |
| RoundRobin.Reset | src/RRSchedulingPolicy.cpp:136-145 | the queue is empty and the clock equals the quantum; the quantum and the running id are kept |
| RoundRobin.RRSchedulingPolicy.constructor | src/RRSchedulingPolicy.cpp:32-39 | a new policy stores the quantum unchecked, has an empty ready queue and a clock equal to the quantum (and an IDLE running id) |
| RoundRobin.RRSchedulingPolicy.NewProcess | src/RRSchedulingPolicy.cpp:57-61 | the queue becomes the old queue plus `pid` at the tail; running id and clock are unchanged (the quantum is a `const`) |
| RoundRobin.RRSchedulingPolicy.Dispatch | src/RRSchedulingPolicy.cpp:75-94 | empty queue: returns IDLE and changes nothing; otherwise returns the old head, the queue loses exactly its head, the running id is the returned id, and the clock is `quantum - 1` |
| RoundRobin.RRSchedulingPolicy.Preempt | src/RRSchedulingPolicy.cpp:108-127 | returns true exactly when the clock was 0; then the old running id is appended to the queue, the running id becomes IDLE and the clock stays 0; otherwise the clock drops by exactly 1 and queue and running id are unchanged |
| RoundRobin.RRSchedulingPolicy.ResetPolicy | src/RRSchedulingPolicy.cpp:136-145 | the queue is empty and the clock equals the quantum; the running id is unchanged (the quantum is a `const`) |
| RoundRobinProperties.AdmitAllAppends | src/RRSchedulingPolicy.cpp:57-61 | a series of arrivals appends exactly those ids, in order, and changes nothing else |
| RoundRobinProperties.DispatchManyDrains | src/RRSchedulingPolicy.cpp:75-94 | dispatching once per waiting process returns the whole queue in order and empties it; the last one is left running with `quantum - 1` on the clock |
| RoundRobinProperties.FifoOrder | src/RRSchedulingPolicy.cpp:57-94 | after `newProcess(p1..pn)` on an empty queue, n dispatches return p1..pn in arrival order |
| RoundRobinProperties.IdleDispatchIdempotent | src/RRSchedulingPolicy.cpp:79-82 | on an empty queue, any number of dispatches return only IDLE and leave the state as it was |
| RoundRobinProperties.PreemptAfterCountdown | src/RRSchedulingPolicy.cpp:108-127 | from clock c >= 0, the next c preempts return false and the one after returns true, re-enqueueing the running id and idling the CPU |
| RoundRobinProperties.QuantumFairness | src/RRSchedulingPolicy.cpp:84-127 | after a successful dispatch with quantum Q >= 1, the next Q-1 preempts return false and the Q-th returns true; the dispatched process is then at the tail of the queue |
| RoundRobinProperties.NegativeClockNeverPreempts | src/RRSchedulingPolicy.cpp:111-126 | with a negative clock (a quantum below 1 at dispatch), no number of preempts ever returns true; the clock only keeps falling |
| RoundRobinProperties.SlicesRotate | src/RRSchedulingPolicy.cpp:75-127 | with quantum >= 1, each full slice (dispatch, then Q preempts) rotates the queue by one, so the process k-th in line is dispatched after exactly k slices |
| RoundRobinProperties.AdmitAddsToPool | src/RRSchedulingPolicy.cpp:57-61 | an arrival adds exactly its id to the multiset of process ids the policy holds (queue plus running id, IDLE counted nowhere); an IDLE arrival adds nothing |
| RoundRobinProperties.DispatchConservesPool | src/RRSchedulingPolicy.cpp:84-93 | a dispatch on an idle CPU keeps the multiset of held process ids (IDLE counted nowhere), moving one id from the queue to the running slot |
| RoundRobinProperties.PreemptConservesPool | src/RRSchedulingPolicy.cpp:108-127 | every preempt keeps the multiset of held process ids (IDLE counted nowhere): a tick changes no id, an expiry moves the running id to the queue's tail |
| RoundRobinProperties.ResetLikeFresh | src/RRSchedulingPolicy.cpp:136-145 | a reset state equals a fresh policy with the same quantum except for the running id; after the same arrivals the next dispatch returns the same id, and after a successful dispatch the two states are identical |

## Left out

- The `sys` pointer and the `SchedulingSystem` it points to. The RR logic does not use them; they belong to the simulator.
- The abstract `SchedulingPolicy` base class, including the definition of `IDLE` (taken as -1 here) and the initial value of the running id. The RR constructor does not set the running id, so the model starts it at IDLE.
- The `finished()` completion notification and the per-cycle bookkeeping of the simulator. They are not in the RR source.
- Input validation. The source rejects no quantum, no duplicate id and no dispatch while a process runs. The model neither adds such checks nor invents error results. Dispatching while a process runs overwrites the running id, so `DispatchConservesPool` requires an idle CPU.
- The destructor, which has no behaviour.
- The header's no-argument constructor declaration. The model follows the definition, which takes the quantum as an `int`.
- The swap-with-an-empty-queue idiom in `resetPolicy`. It is modelled as assigning the empty sequence.
- 32-bit integer width. Ids, the quantum and the clock are unbounded integers. A negative quantum makes the clock fall without bound; in C++ it eventually overflows (at once, at src/RRSchedulingPolicy.cpp:91, for a quantum of INT_MIN). The model's unbounded `int` does not capture that overflow.
- NegativeClockNeverPreempts: its "never fires" holds only for the unbounded clock of the model; in C++ the decrement of a negative `int` clock eventually overflows, which the lemma does not describe.
