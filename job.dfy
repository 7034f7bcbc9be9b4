/**
 * Manufacturing jobs and machines. A job carries fixed data (identifier,
 * processing time in hours, due date and arrival time as real hours from an
 * epoch, required machine) and scheduling state that the machines and the
 * scheduler update in place. A machine keeps its list of scheduled jobs and
 * its bookkeeping (total processing time, utilization), and finds the
 * earliest start slot for a new job by a greedy gap search.
 */
module Jobs {
  import opened Base
  import opened Sorting

  /** The job life cycle; the scheduling core only ever sets Pending and Scheduled. */
  datatype Status = Pending | Scheduled | InProgress | Completed

  /**
   * Construction check: the first failing condition, in the order the
   * source tests them, or None when the data are acceptable.
   */
  function ValidationError(processingTime: real, dueDate: real, arrivalTime: real): (e: Option<string>)
    ensures e.None? <==> processingTime > 0.0 && dueDate >= arrivalTime
    ensures processingTime <= 0.0 ==> e == Some("Processing time must be positive")
  {
    if processingTime <= 0.0 then Some("Processing time must be positive")
    else if dueDate < arrivalTime then Some("Due date cannot be before arrival time")
    else None
  }

  /**
   * Urgency on a 1..10 scale from the hours remaining until the due date,
   * measured in multiples of the processing time.
   */
  function UrgencyLevel(remaining: real, processingTime: real): (u: real)
    ensures 1.0 <= u <= 10.0
  {
    if remaining <= 0.0 then 10.0
    else if remaining <= processingTime then 9.0
    else if remaining <= 2.0 * processingTime then 7.0
    else if remaining <= 5.0 * processingTime then 5.0
    else if remaining <= 10.0 * processingTime then 3.0
    else 1.0
  }

  /** Less time remaining never means less urgency. */
  lemma UrgencyNonIncreasing(r1: real, r2: real, processingTime: real)
    requires processingTime > 0.0
    requires r1 <= r2
    ensures UrgencyLevel(r1, processingTime) >= UrgencyLevel(r2, processingTime)
  {
  }

  /**
   * The thresholds of the urgency scale: each level is reached exactly when
   * the remaining time is within the matching multiple of the processing time.
   */
  lemma UrgencyThresholds(remaining: real, processingTime: real)
    requires processingTime > 0.0
    ensures UrgencyLevel(remaining, processingTime) == 10.0 <==> remaining <= 0.0
    ensures UrgencyLevel(remaining, processingTime) >= 9.0 <==> remaining <= processingTime
    ensures UrgencyLevel(remaining, processingTime) >= 7.0 <==> remaining <= 2.0 * processingTime
    ensures UrgencyLevel(remaining, processingTime) >= 5.0 <==> remaining <= 5.0 * processingTime
    ensures UrgencyLevel(remaining, processingTime) >= 3.0 <==> remaining <= 10.0 * processingTime
  {
  }

  /** Hours of processing: the source refuses to build a job without a positive processing time. */
  type PositiveHours = r: real | r > 0.0 witness 1.0

  /** A manufacturing job. */
  class Job {
    const jobId: string
    const name: string
    const processingTime: PositiveHours
    const dueDate: real
    const arrivalTime: real
    const machineRequired: string
    var priorityScore: real
    var status: Status
    var assignedMachine: Option<string>
    var startTime: Option<real>
    var completionTime: Option<real>

    /** What construction guarantees of every job. */
    predicate Valid()
    {
      ValidationError(processingTime, dueDate, arrivalTime).None?
    }

    /** A job as the dataclass builds it with its defaults: pending, unassigned, priority 0. */
    constructor (jobId: string, name: string, processingTime: real, dueDate: real, arrivalTime: real, machineRequired: string)
      requires ValidationError(processingTime, dueDate, arrivalTime).None?
      ensures Valid()
      ensures this.jobId == jobId && this.name == name && this.processingTime == processingTime
      ensures this.dueDate == dueDate && this.arrivalTime == arrivalTime && this.machineRequired == machineRequired
      ensures priorityScore == 0.0 && status == Pending && assignedMachine == None
      ensures startTime == None && completionTime == None
    {
      this.jobId := jobId;
      this.name := name;
      this.processingTime := processingTime;
      this.dueDate := dueDate;
      this.arrivalTime := arrivalTime;
      this.machineRequired := machineRequired;
      priorityScore := 0.0;
      status := Pending;
      assignedMachine := None;
      startTime := None;
      completionTime := None;
    }

    /**
     * Urgency at time `now`: 10 from the due date on, at least 9 once the
     * job can no longer finish before its due date.
     */
    function CalculateUrgency(now: real): (u: real)
      ensures 1.0 <= u <= 10.0
      ensures u == 10.0 <==> now >= dueDate
      ensures u >= 9.0 <==> now + processingTime >= dueDate
    {
      UrgencyThresholds(dueDate - now, processingTime);
      UrgencyLevel(dueDate - now, processingTime)
    }

    /** Past the due date and not completed: then the slack is negative and the urgency at its top. */
    predicate IsOverdue(now: real): (overdue: bool)
      reads this
      ensures status == Completed ==> !overdue
      ensures overdue ==> SlackTime(now) < 0.0 && CalculateUrgency(now) == 10.0
    {
      now > dueDate && status != Completed
    }

    /** Hours to the due date left over after processing (negative when the job cannot finish in time). */
    function SlackTime(now: real): (slack: real)
      ensures slack < dueDate - now
      ensures slack < 0.0 <==> now + processingTime > dueDate
      ensures slack <= 0.0 ==> CalculateUrgency(now) >= 9.0
    {
      (dueDate - now) - processingTime
    }
  }

  /**
   * Building a job: the error of the first failed check, or a new pending
   * job holding the given data.
   */
  method NewJob(jobId: string, name: string, processingTime: real, dueDate: real, arrivalTime: real, machineRequired: string)
    returns (r: Result<Job>)
    ensures r.Failure? <==> ValidationError(processingTime, dueDate, arrivalTime).Some?
    ensures r.Failure? ==> r.error == ValidationError(processingTime, dueDate, arrivalTime).value
    ensures r.Success? ==> (fresh(r.value) && r.value.Valid() && r.value.status == Pending
      && r.value.jobId == jobId && r.value.processingTime == processingTime
      && r.value.dueDate == dueDate && r.value.arrivalTime == arrivalTime)
  {
    var error := ValidationError(processingTime, dueDate, arrivalTime);
    if error.Some? {
      return Failure(error.value);
    }
    var job := new Job(jobId, name, processingTime, dueDate, arrivalTime, machineRequired);
    return Success(job);
  }

  /** Slack and urgency agree: a job whose slack is negative is at urgency 9 or more. */
  lemma NegativeSlackIsUrgent(job: Job, now: real)
    requires job.Valid()
    ensures job.SlackTime(now) < 0.0 <==> now + job.processingTime > job.dueDate
    ensures job.SlackTime(now) <= 0.0 ==> job.CalculateUrgency(now) >= 9.0
  {
  }

  /** An overdue job has negative slack and the top urgency. */
  lemma OverdueJobHasNegativeSlack(job: Job, now: real)
    requires job.Valid() && job.IsOverdue(now)
    ensures job.SlackTime(now) < 0.0
    ensures job.CalculateUrgency(now) == 10.0
  {
  }

  // ---------------------------------------------------------------------
  // Machines
  // ---------------------------------------------------------------------

  /** Sum of the processing times of a list of jobs. */
  function TotalTime(jobs: seq<Job>): real
  {
    if jobs == [] then 0.0 else TotalTime(jobs[..|jobs| - 1]) + jobs[|jobs| - 1].processingTime
  }

  /** Utilization of a 40-hour week, capped at 1. */
  function UtilizationOf(total: real): real
  {
    Min(1.0, total / 40.0)
  }

  /** Load as a percentage of 100 hours of capacity, capped at 100. */
  function LoadOf(total: real): real
  {
    Min(100.0, (total / 100.0) * 100.0)
  }

  /**
   * The bookings of a machine for the slot search: (start, completion) of
   * every job that has a start time, in list order.
   */
  function Bookings(jobs: seq<Job>): (b: seq<(real, Option<real>)>)
    reads jobs
    ensures |b| <= |jobs|
  {
    if jobs == [] then []
    else
      var rest := Bookings(jobs[1..]);
      if jobs[0].startTime.Some? then [(jobs[0].startTime.value, jobs[0].completionTime)] + rest else rest
  }

  /**
   * The greedy gap search over bookings sorted by start: stop at the first
   * booking that starts at least `processingTime` after the candidate start,
   * otherwise push the candidate past the booking's completion (if known).
   */
  function FirstFit(bookings: seq<(real, Option<real>)>, processingTime: real, candidate: real): real
  {
    if bookings == [] then candidate
    else if bookings[0].0 >= candidate + processingTime then candidate
    else
      var next := if bookings[0].1.Some? then Max(candidate, bookings[0].1.value) else candidate;
      FirstFit(bookings[1..], processingTime, next)
  }

  /** The slot found is never earlier than the candidate start. */
  lemma {:induction false} FirstFitNotEarlier(bookings: seq<(real, Option<real>)>, processingTime: real, candidate: real)
    ensures FirstFit(bookings, processingTime, candidate) >= candidate
  {
    if bookings != [] && bookings[0].0 < candidate + processingTime {
      var next := if bookings[0].1.Some? then Max(candidate, bookings[0].1.value) else candidate;
      FirstFitNotEarlier(bookings[1..], processingTime, next);
    }
  }

  /**
   * On bookings sorted by start, the slot [r, r + processingTime] overlaps
   * no booking with a known completion: each such booking either completes
   * by r or starts at or after r + processingTime.
   */
  lemma {:induction false} FirstFitNoOverlap(bookings: seq<(real, Option<real>)>, processingTime: real, candidate: real)
    requires SortedByKey(bookings)
    ensures forall i :: 0 <= i < |bookings| && bookings[i].1.Some? ==>
      bookings[i].1.value <= FirstFit(bookings, processingTime, candidate) ||
      FirstFit(bookings, processingTime, candidate) + processingTime <= bookings[i].0
  {
    if bookings != [] && bookings[0].0 < candidate + processingTime {
      var next := if bookings[0].1.Some? then Max(candidate, bookings[0].1.value) else candidate;
      var rest := bookings[1..];
      assert SortedByKey(rest);
      FirstFitNoOverlap(rest, processingTime, next);
      FirstFitNotEarlier(rest, processingTime, next);
      assert forall i :: 1 <= i < |bookings| ==> bookings[i] == rest[i - 1];
    }
  }

  /** A machine and its schedule. */
  class Machine {
    const machineId: string
    const name: string
    /** Kept as given; no computation reads it. */
    const capacity: real
    var scheduledJobs: seq<Job>
    var totalProcessingTime: real
    var utilization: real

    /** The bookkeeping agrees with the job list. */
    ghost predicate Valid()
      reads this
    {
      totalProcessingTime == TotalTime(scheduledJobs) &&
      utilization == UtilizationOf(totalProcessingTime)
    }

    constructor (machineId: string, name: string, capacity: real)
      ensures Valid()
      ensures this.machineId == machineId && this.name == name && this.capacity == capacity
      ensures scheduledJobs == [] && totalProcessingTime == 0.0 && utilization == 0.0
    {
      this.machineId := machineId;
      this.name := name;
      this.capacity := capacity;
      scheduledJobs := [];
      totalProcessingTime := 0.0;
      utilization := 0.0;
    }

    /** Recomputes the utilization from the total processing time. */
    method UpdateUtilization()
      modifies this
      ensures utilization == UtilizationOf(totalProcessingTime)
      ensures scheduledJobs == old(scheduledJobs) && totalProcessingTime == old(totalProcessingTime)
    {
      utilization := Min(1.0, totalProcessingTime / 40.0);
    }

    /**
     * Appends the job, marks it scheduled on this machine and adds its
     * processing time; of the job only its status and machine change.
     */
    method AddJob(job: Job)
      requires Valid()
      modifies this, job`assignedMachine, job`status
      ensures Valid()
      ensures scheduledJobs == old(scheduledJobs) + [job]
      ensures totalProcessingTime == old(totalProcessingTime) + job.processingTime
      ensures job.assignedMachine == Some(machineId) && job.status == Scheduled
    {
      scheduledJobs := scheduledJobs + [job];
      job.assignedMachine := Some(machineId);
      job.status := Scheduled;
      totalProcessingTime := totalProcessingTime + job.processingTime;
      UpdateUtilization();
      assert scheduledJobs[..|scheduledJobs| - 1] == old(scheduledJobs);
    }

    /**
     * Removes the first job with the given identifier, resets it to pending
     * and unassigned and subtracts its processing time; returns None and
     * changes nothing when no job has that identifier.
     */
    method RemoveJob(jobId: string) returns (removed: Option<Job>)
      requires Valid()
      modifies this, scheduledJobs`assignedMachine, scheduledJobs`status
      ensures Valid()
      ensures FindJob(old(scheduledJobs), jobId).None? ==>
        removed == None && scheduledJobs == old(scheduledJobs) && totalProcessingTime == old(totalProcessingTime)
      ensures FindJob(old(scheduledJobs), jobId).Some? ==>
        var i := FindJob(old(scheduledJobs), jobId).value;
        removed == Some(old(scheduledJobs)[i]) &&
        scheduledJobs == old(scheduledJobs)[..i] + old(scheduledJobs)[i + 1..] &&
        totalProcessingTime == old(totalProcessingTime) - old(scheduledJobs)[i].processingTime
      ensures removed.Some? ==> removed.value.status == Pending && removed.value.assignedMachine == None
      ensures forall k :: 0 <= k < |scheduledJobs| ==> scheduledJobs[k] in old(scheduledJobs)
      ensures forall j :: j in old(scheduledJobs) && Some(j) != removed ==>
        j.status == old(j.status) && j.assignedMachine == old(j.assignedMachine)
      ensures forall j :: j in old(scheduledJobs) ==> (j.startTime == old(j.startTime) &&
        j.completionTime == old(j.completionTime) && j.priorityScore == old(j.priorityScore))
    {
      for i := 0 to |scheduledJobs|
        invariant forall k :: 0 <= k < i ==> scheduledJobs[k].jobId != jobId
      {
        if scheduledJobs[i].jobId == jobId {
          var job := scheduledJobs[i];
          RemoveAt(i, job);
          return Some(job);
        }
      }
      return None;
    }

    /**
     * Removes the job at index i, resets it to pending and unassigned and
     * subtracts its processing time.
     */
    method RemoveAt(i: nat, job: Job)
      requires Valid() && i < |scheduledJobs| && job == scheduledJobs[i]
      modifies this, job`assignedMachine, job`status
      ensures Valid()
      ensures scheduledJobs == old(scheduledJobs)[..i] + old(scheduledJobs)[i + 1..]
      ensures totalProcessingTime == old(totalProcessingTime) - old(scheduledJobs)[i].processingTime
      ensures job.status == Pending && job.assignedMachine == None
    {
      RemovePreservesTotal(scheduledJobs, i);
      scheduledJobs := scheduledJobs[..i] + scheduledJobs[i + 1..];
      job.assignedMachine := None;
      job.status := Pending;
      totalProcessingTime := totalProcessingTime - job.processingTime;
      UpdateUtilization();
    }

    /** Load as a percentage, capped at 100. */
    function GetCurrentLoad(): (load: real)
      reads this
      ensures load <= 100.0
      ensures totalProcessingTime >= 0.0 ==> 0.0 <= load
    {
      LoadOf(totalProcessingTime)
    }

    /**
     * The earliest start at or after `earliestStart` found by the gap search
     * over this machine's bookings in start order. It never fails.
     */
    method GetAvailableSlot(processingTime: real, earliestStart: real) returns (slot: Option<real>)
      ensures slot == Some(FirstFit(SortByKey(Bookings(scheduledJobs)), processingTime, earliestStart))
      ensures slot.value >= earliestStart
      ensures forall j :: j in scheduledJobs && j.startTime.Some? && j.completionTime.Some? ==>
        j.completionTime.value <= slot.value || slot.value + processingTime <= j.startTime.value
    {
      var sorted := SortByKey(Bookings(scheduledJobs));
      ghost var found := FirstFit(sorted, processingTime, earliestStart);
      if scheduledJobs == [] {
        assert sorted == [];
        slot := Some(earliestStart);
      } else {
        var current := earliestStart;
        var k := 0;
        while k < |sorted|
          invariant 0 <= k <= |sorted|
          invariant FirstFit(sorted[k..], processingTime, current) == found
        {
          if sorted[k].0 >= current + processingTime {
            break;
          }
          if sorted[k].1.Some? {
            current := Max(current, sorted[k].1.value);
          }
          assert sorted[k..][1..] == sorted[k + 1..];
          k := k + 1;
        }
        slot := Some(current);
      }
      SlotAvoidsBookings(scheduledJobs, sorted, processingTime, earliestStart);
    }
  }

  /** Every job with a start time contributes its booking. */
  lemma {:induction false} BookingsInclude(jobs: seq<Job>, j: Job)
    requires j in jobs && j.startTime.Some?
    ensures (j.startTime.value, j.completionTime) in Bookings(jobs)
  {
    if jobs[0] != j {
      BookingsInclude(jobs[1..], j);
    }
  }

  /**
   * The slot found on a machine's bookings sorted by start is no earlier
   * than the earliest start, and the job placed there overlaps none of the
   * machine's jobs that have both a start and a completion time.
   */
  lemma SlotAvoidsBookings(jobs: seq<Job>, sorted: seq<(real, Option<real>)>, processingTime: real, earliestStart: real)
    requires SortedByKey(sorted) && multiset(sorted) == multiset(Bookings(jobs))
    ensures FirstFit(sorted, processingTime, earliestStart) >= earliestStart
    ensures forall j :: j in jobs && j.startTime.Some? && j.completionTime.Some? ==>
      j.completionTime.value <= FirstFit(sorted, processingTime, earliestStart) ||
      FirstFit(sorted, processingTime, earliestStart) + processingTime <= j.startTime.value
  {
    var r := FirstFit(sorted, processingTime, earliestStart);
    FirstFitNotEarlier(sorted, processingTime, earliestStart);
    FirstFitNoOverlap(sorted, processingTime, earliestStart);
    forall j | j in jobs && j.startTime.Some? && j.completionTime.Some?
      ensures j.completionTime.value <= r || r + processingTime <= j.startTime.value
    {
      var b := (j.startTime.value, j.completionTime);
      BookingsInclude(jobs, j);
      assert b in multiset(sorted);
      var i :| 0 <= i < |sorted| && sorted[i] == b;
    }
  }

  /** Index of the first job with the given identifier. */
  function FindJob(jobs: seq<Job>, jobId: string): (r: Option<nat>)
    ensures r.Some? ==> (r.value < |jobs| && jobs[r.value].jobId == jobId &&
      forall k :: 0 <= k < r.value ==> jobs[k].jobId != jobId)
    ensures r.None? ==> forall k :: 0 <= k < |jobs| ==> jobs[k].jobId != jobId
  {
    if jobs == [] then None
    else if jobs[0].jobId == jobId then Some(0)
    else
      var rest := FindJob(jobs[1..], jobId);
      if rest.Some? then Some(rest.value + 1) else None
  }

  /** Dropping the job at index i takes exactly its processing time off the total. */
  lemma {:induction false} RemovePreservesTotal(jobs: seq<Job>, i: nat)
    requires i < |jobs|
    ensures TotalTime(jobs[..i] + jobs[i + 1..]) == TotalTime(jobs) - jobs[i].processingTime
  {
    if i < |jobs| - 1 {
      var init := jobs[..|jobs| - 1];
      RemovePreservesTotal(init, i);
      assert (jobs[..i] + jobs[i + 1..])[..|jobs| - 2] == init[..i] + init[i + 1..];
    } else {
      assert jobs[..i] + jobs[i + 1..] == jobs[..|jobs| - 1];
    }
  }

  /** Processing times are positive, so the total is non-negative and the load and utilization are fractions of their caps. */
  lemma {:induction false} TotalTimeNonNegative(jobs: seq<Job>)
    ensures TotalTime(jobs) >= 0.0
    ensures 0.0 <= LoadOf(TotalTime(jobs)) <= 100.0
    ensures 0.0 <= UtilizationOf(TotalTime(jobs)) <= 1.0
  {
    if jobs != [] {
      TotalTimeNonNegative(jobs[..|jobs| - 1]);
    }
  }

  /**
   * Adding a job then removing its identifier restores the list and the
   * total, provided no earlier job carries the same identifier (otherwise
   * the earlier one is removed).
   */
  lemma AddThenRemove(jobs: seq<Job>, job: Job)
    requires FindJob(jobs, job.jobId).None?
    ensures FindJob(jobs + [job], job.jobId) == Some(|jobs|)
    ensures (jobs + [job])[..|jobs|] + (jobs + [job])[|jobs| + 1..] == jobs
    ensures TotalTime(jobs + [job]) - job.processingTime == TotalTime(jobs)
  {
    assert (jobs + [job])[..|jobs|] == jobs;
    FindJobPrefix(jobs, job);
  }

  lemma {:induction false} FindJobPrefix(jobs: seq<Job>, job: Job)
    requires FindJob(jobs, job.jobId).None?
    ensures FindJob(jobs + [job], job.jobId) == Some(|jobs|)
  {
    if jobs != [] {
      FindJobPrefix(jobs[1..], job);
      assert (jobs + [job])[1..] == jobs[1..] + [job];
    }
  }
}
