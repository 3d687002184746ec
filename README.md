# MLFQ scheduler: the Process record

This project is a Dafny model of the per-process bookkeeping in the
MLFQScheduler repository. A Multi-Level Feedback Queue (MLFQ) scheduler
relies on this bookkeeping. A `Process` has three parts:

- a static identity and workload: `pid`, `arrivalTime` and `burstTime`;
- dynamic scheduling state: remaining work, waiting, turnaround, response and
  finish times, priority level, time in the current queue, and a started flag;
- a natural ordering by arrival time.

Two files make up the project:

- `process_spec.dfy` (module `ProcessSpec`) holds a process as a value
  (`ProcessRecord`). It also holds the state transitions as functions:
  `Execute`, `IncrementWaitingTime`, `ResetTimeInCurrentQueue` and
  `IntegerCompare`. The contracts of these functions state what each
  operation means. The module's lemmas cover whole histories: a `Step` is
  one run, one wait or one reset, and `Replay` applies a sequence of steps
  in order.
- `process.dfy` (module `Processes`) holds `class Process`. Its three static
  attributes are `const` fields, so Dafny itself guarantees that they never
  change after construction. The dynamic state is held in `var` fields. Each
  mutating method says what the object's `Snapshot()` becomes, in terms of
  the matching `ProcessSpec` function applied to the old snapshot. Each
  setter overwrites exactly one field. Getters are plain reads of the
  fields.

Integers are Dafny's unbounded `int` (see "Left out").

Where the code and the design description of the repository disagree, the
model follows the code:

- The design calls a run of an already-completed process an error.
  `execute` raises nothing in that case. Given a non-negative slice it
  consumes nothing, returns true and overwrites `finishTime` with the
  current time. `ProcessSpec.Execute` states this as written.
- The design rejects a non-positive burst time when a process is built. The
  constructor accepts any value, and so does the model.
- A field comment says priority levels run from 1 to 3. The constructor
  starts at 0, and the model follows the constructor.

## Model

| member | source | states |
|---|---|---|
| `Processes.Process.constructor` | Process.java:38-55 | the identity and burst are stored; `remainingTime == burstTime`, `priorityLevel == 0`, `hasStarted` is false, and the waiting, queue, turnaround, response and finish times are all 0 |
| `ProcessSpec.Execute` | Process.java:101-123 | the first run records `responseTime = currentTime - arrivalTime` and sets `hasStarted`; later runs keep both. Exactly `min(quantum, remaining)` is consumed, so with non-negative inputs the remainder stays in `0..old remaining`. The result is true iff the new remainder is 0, iff the slice covers the old remainder. On completion `finishTime = currentTime + old remaining` and `turnaroundTime = finishTime - arrivalTime`; otherwise both are unchanged. Given a non-negative slice, a process with nothing left completes again and has `finishTime` overwritten. No other field changes |
| `Processes.Process.Execute` | Process.java:101-123 | the object's new state and its return value are those of `ProcessSpec.Execute` on its old state, and it returns true iff `remainingTime` is now 0 |
| `ProcessSpec.IncrementWaitingTime` | Process.java:125-133 | `waitingTime` and `timeInCurrentQueue` each grow by exactly the increment; every other field is unchanged |
| `Processes.Process.IncrementWaitingTime` | Process.java:130-133 | the object's new state is `ProcessSpec.IncrementWaitingTime` of its old state |
| `ProcessSpec.ResetTimeInCurrentQueue` | Process.java:135-140 | `timeInCurrentQueue` becomes 0 and every other field is unchanged |
| `Processes.Process.ResetTimeInCurrentQueue` | Process.java:138-140 | the object's new state is `ProcessSpec.ResetTimeInCurrentQueue` of its old state |
| `Processes.Process.SetRemainingTime` | Process.java:85 | only `remainingTime` changes, to the given value |
| `Processes.Process.SetWaitingTime` | Process.java:86 | only `waitingTime` changes, to the given value |
| `Processes.Process.SetTurnaroundTime` | Process.java:87 | only `turnaroundTime` changes, to the given value |
| `Processes.Process.SetResponseTime` | Process.java:88 | only `responseTime` changes, to the given value |
| `Processes.Process.SetFinishTime` | Process.java:89 | only `finishTime` changes, to the given value |
| `Processes.Process.SetPriorityLevel` | Process.java:90 | only `priorityLevel` changes, to the given value |
| `Processes.Process.SetTimeInCurrentQueue` | Process.java:91 | only `timeInCurrentQueue` changes, to the given value |
| `Processes.Process.SetHasStarted` | Process.java:92 | only `hasStarted` changes, to the given value |
| `ProcessSpec.IntegerCompare` | Process.java:65-68 | the result is -1, 0 or 1, and it is negative, zero or positive exactly as the first argument is less than, equal to or greater than the second |
| `Processes.Process.CompareTo` | Process.java:57-68 | negative, zero or positive exactly as this process arrives before, with or after the other |
| `Processes.CompareToAntisymmetric` | Process.java:65-68 | swapping the two processes negates the comparison |
| `Processes.CompareToTransitive` | Process.java:65-68 | the comparison is reflexive and transitive (strictly so when either step is strict), so it is a total preorder by arrival time |
| `Processes.SortedByCompareToOrdersArrivals` | Process.java:57-68 | a list that `CompareTo` orders pair by adjacent pair has non-decreasing arrival times between any two positions |
| `ProcessSpec.ReplayKeepsIdentity` | Process.java:101-140 | no run, wait or reset ever changes `pid`, `arrivalTime`, `burstTime` or `priorityLevel` |
| `ProcessSpec.ReplayRemaining` | Process.java:108-112 | from a non-negative remainder, over any history with non-negative quanta, the remainder equals `max(0, old remainder - total quanta offered)`; it never increases and never goes below 0 |
| `ProcessSpec.CompletesIffQuantaCoverBurst` | Process.java:45-115 | a newly built process with a non-negative burst has no work left after a history with non-negative quanta iff the total quanta offered are at least its burst |
| `ProcessSpec.ReplayWaiting` | Process.java:130-133 | after any history, `waitingTime` is the old value plus the sum of all waits |
| `ProcessSpec.ReplayQueueTimeBounded` | Process.java:130-140 | with non-negative waits, `0 <= timeInCurrentQueue <= waitingTime` holds through any history once it holds at the start (it holds at construction) |
| `ProcessSpec.ReplayResponseTime` | Process.java:102-106 | `hasStarted` is set iff some run happened, and `responseTime` is set once, by the first run ever: that run's time minus the arrival time |
| `ProcessSpec.ReplayKeepsTurnaroundConsistent` | Process.java:117-120 | once `turnaroundTime == finishTime - arrivalTime` holds (as after any completing run), no later run, wait or reset breaks it |

## Left out

- Processes.Process.Execute: does not model Java's 32-bit `int` wrap-around in `remainingTime -= executionTime`, `currentTime + executionTime`, `finishTime - arrivalTime` or `currentTime - arrivalTime`. Integers are unbounded, so the model matches Java only while no value overflows.
- Processes.Process.IncrementWaitingTime: does not model 32-bit wrap-around of the two counters, for the same reason.
- `toString` (Process.java:148-151) is string formatting for logs. It is not modelled.
- The scheduler engine (src/MLFQScheduler/MLFQSchedulerEngine.java) is not modelled. Its simulation loop (lines 41-44) has an empty body. Its queues, current process and quantum counter (lines 14-25) are declared but never used. So there is no dispatch, aging, demotion or completion behaviour to model.
- The `Collections.sort` call in the engine (src/MLFQScheduler/MLFQSchedulerEngine.java:33) is a library call. Only the comparator it relies on is modelled, together with the ordering that comparator induces (`SortedByCompareToOrdersArrivals`).
- The driver src/MLFQScheduler/MLFQSimulator.java builds a fixed process list and calls the engine's `run`. It is not modelled.
- Null references are not modelled. In Java `compareTo(null)` throws a NullPointerException and `pid` may be null. In the model, `other: Process` and `pid: string` are never null.
- Aliasing between `Process` objects does not arise: every method modifies only `this`.
