/** The Process object of the MLFQ scheduler: static identity and workload,
    fixed at construction, and the dynamic scheduling state that its methods
    update in place. Each mutating method is specified by the matching function
    of ProcessSpec applied to the object's Snapshot(). */
module Processes {
  import opened ProcessSpec

  class Process {
    // static attributes: no setter, never change after construction
    const pid: string
    const arrivalTime: int
    const burstTime: int

    // dynamic scheduling state
    var remainingTime: int
    var waitingTime: int
    var turnaroundTime: int
    var responseTime: int
    var finishTime: int
    var priorityLevel: int
    var timeInCurrentQueue: int
    var hasStarted: bool

    /** Every field of the object as one value. */
    function Snapshot(): (r: ProcessRecord)
      reads this
    {
      ProcessRecord(pid, arrivalTime, burstTime, remainingTime, waitingTime,
                    turnaroundTime, responseTime, finishTime, priorityLevel,
                    timeInCurrentQueue, hasStarted)
    }

    /** A process that has not run yet: all of its burst remains, it sits at
        priority level 0 and every counter and timestamp is zero. */
    constructor (pid: string, arrivalTime: int, burstTime: int)
      ensures this.pid == pid && this.arrivalTime == arrivalTime && this.burstTime == burstTime
      ensures remainingTime == burstTime && priorityLevel == 0 && !hasStarted
      ensures waitingTime == 0 && timeInCurrentQueue == 0
      ensures turnaroundTime == 0 && responseTime == 0 && finishTime == 0
      ensures Snapshot() == Initial(pid, arrivalTime, burstTime)
    {
      this.pid := pid;
      this.arrivalTime := arrivalTime;
      this.burstTime := burstTime;
      remainingTime := burstTime;
      priorityLevel := 0;
      hasStarted := false;
      waitingTime := 0;
      timeInCurrentQueue := 0;
      turnaroundTime := 0;
      responseTime := 0;
      finishTime := 0;
    }

    /** Natural ordering: by arrival time, with the sign of Integer.compare. */
    function CompareTo(other: Process): (r: int)
      ensures -1 <= r <= 1
      ensures r < 0 <==> arrivalTime < other.arrivalTime
      ensures r == 0 <==> arrivalTime == other.arrivalTime
      ensures r > 0 <==> arrivalTime > other.arrivalTime
    {
      IntegerCompare(arrivalTime, other.arrivalTime)
    }

    /** Runs the process for up to `timeQuantum` units starting at `currentTime`
        and reports whether it is now complete. */
    method Execute(timeQuantum: int, currentTime: int) returns (isCompleted: bool)
      modifies this
      ensures Snapshot() == ProcessSpec.Execute(old(Snapshot()), timeQuantum, currentTime).after
      ensures isCompleted == ProcessSpec.Execute(old(Snapshot()), timeQuantum, currentTime).completed
      ensures isCompleted <==> remainingTime == 0
    {
      if !hasStarted {
        responseTime := currentTime - arrivalTime;
        hasStarted := true;
      }
      var executionTime := Min(timeQuantum, remainingTime);
      remainingTime := remainingTime - executionTime;
      isCompleted := remainingTime == 0;
      if isCompleted {
        finishTime := currentTime + executionTime;
        turnaroundTime := finishTime - arrivalTime;
      }
    }

    /** Adds `timeIncrement` to the total waiting time and to the time spent
        in the current queue. */
    method IncrementWaitingTime(timeIncrement: int)
      modifies this
      ensures Snapshot() == ProcessSpec.IncrementWaitingTime(old(Snapshot()), timeIncrement)
    {
      waitingTime := waitingTime + timeIncrement;
      timeInCurrentQueue := timeInCurrentQueue + timeIncrement;
    }

    /** Restarts the count of time spent in the current queue. */
    method ResetTimeInCurrentQueue()
      modifies this
      ensures Snapshot() == ProcessSpec.ResetTimeInCurrentQueue(old(Snapshot()))
    {
      timeInCurrentQueue := 0;
    }

    // Setters: each overwrites exactly one field.

    method SetRemainingTime(remainingTime: int)
      modifies this
      ensures Snapshot() == old(Snapshot()).(remainingTime := remainingTime)
    {
      this.remainingTime := remainingTime;
    }

    method SetWaitingTime(waitingTime: int)
      modifies this
      ensures Snapshot() == old(Snapshot()).(waitingTime := waitingTime)
    {
      this.waitingTime := waitingTime;
    }

    method SetTurnaroundTime(turnaroundTime: int)
      modifies this
      ensures Snapshot() == old(Snapshot()).(turnaroundTime := turnaroundTime)
    {
      this.turnaroundTime := turnaroundTime;
    }

    method SetResponseTime(responseTime: int)
      modifies this
      ensures Snapshot() == old(Snapshot()).(responseTime := responseTime)
    {
      this.responseTime := responseTime;
    }

    method SetFinishTime(finishTime: int)
      modifies this
      ensures Snapshot() == old(Snapshot()).(finishTime := finishTime)
    {
      this.finishTime := finishTime;
    }

    method SetPriorityLevel(priorityLevel: int)
      modifies this
      ensures Snapshot() == old(Snapshot()).(priorityLevel := priorityLevel)
    {
      this.priorityLevel := priorityLevel;
    }

    method SetTimeInCurrentQueue(timeInCurrentQueue: int)
      modifies this
      ensures Snapshot() == old(Snapshot()).(timeInCurrentQueue := timeInCurrentQueue)
    {
      this.timeInCurrentQueue := timeInCurrentQueue;
    }

    method SetHasStarted(hasStarted: bool)
      modifies this
      ensures Snapshot() == old(Snapshot()).(hasStarted := hasStarted)
    {
      this.hasStarted := hasStarted;
    }
  }

  /** CompareTo is antisymmetric in sign. */
  lemma CompareToAntisymmetric(a: Process, b: Process)
    ensures a.CompareTo(b) == -b.CompareTo(a)
  {
  }

  /** CompareTo is transitive, so it is a total preorder on processes. */
  lemma CompareToTransitive(a: Process, b: Process, c: Process)
    ensures a.CompareTo(b) <= 0 && b.CompareTo(c) <= 0 ==> a.CompareTo(c) <= 0
    ensures a.CompareTo(b) < 0 && b.CompareTo(c) <= 0 ==> a.CompareTo(c) < 0
    ensures a.CompareTo(b) <= 0 && b.CompareTo(c) < 0 ==> a.CompareTo(c) < 0
    ensures a.CompareTo(a) == 0
  {
  }

  /** Ordered by CompareTo, pair by adjacent pair. */
  predicate SortedByCompareTo(ps: seq<Process>)
  {
    forall i :: 0 < i < |ps| ==> ps[i - 1].CompareTo(ps[i]) <= 0
  }

  /** A list that CompareTo orders pair by adjacent pair is ordered by arrival time
      throughout: this is the order the engine's sort establishes. */
  lemma {:induction false} SortedByCompareToOrdersArrivals(ps: seq<Process>)
    requires SortedByCompareTo(ps)
    ensures forall i, j :: 0 <= i < j < |ps| ==> ps[i].arrivalTime <= ps[j].arrivalTime
    decreases |ps|
  {
    if |ps| > 1 {
      var rest := ps[1..];
      assert SortedByCompareTo(rest) by {
        forall i | 0 < i < |rest| ensures rest[i - 1].CompareTo(rest[i]) <= 0 {
          assert rest[i - 1] == ps[i] && rest[i] == ps[i + 1];
        }
      }
      SortedByCompareToOrdersArrivals(rest);
      forall i, j | 0 <= i < j < |ps| ensures ps[i].arrivalTime <= ps[j].arrivalTime {
        if i == 0 {
          assert ps[0].CompareTo(ps[1]) <= 0;
          assert j == 1 || rest[0].arrivalTime <= rest[j - 1].arrivalTime;
        } else {
          assert rest[i - 1].arrivalTime <= rest[j - 1].arrivalTime;
        }
      }
    }
  }
}
