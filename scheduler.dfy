/**
 * The fuzzy scheduler: it owns the scheduling inference system, the
 * registered machines (in registration order, as Python's dict keeps them)
 * and the jobs, and places pending jobs on machines in the order one of
 * three rules gives: descending fuzzy priority, first come first served,
 * or earliest due date.
 */
module Scheduler {
  import opened Base
  import opened Sorting
  import opened FuzzyEngine
  import opened FuzzySystem
  import opened SchedulingSystem
  import opened Jobs

  /** The scheduling rules the scheduler knows by name. */
  datatype Algorithm = FuzzyPriority | Fcfs | Edd

  /** Recognises the three algorithm names; any other name is unknown. */
  function ParseAlgorithm(name: string): (a: Option<Algorithm>)
    ensures a == Some(FuzzyPriority) <==> name == "fuzzy_priority"
    ensures a == Some(Fcfs) <==> name == "fcfs"
    ensures a == Some(Edd) <==> name == "edd"
  {
    if name == "fuzzy_priority" then Some(FuzzyPriority)
    else if name == "fcfs" then Some(Fcfs)
    else if name == "edd" then Some(Edd)
    else None
  }

  /** The priority given when there is nothing to evaluate a job against, and by FCFS. */
  const NeutralPriority: real := 50.0

  /** The crisp inputs of the priority inference. */
  function PriorityInputs(urgency: real, processingTime: real, load: real): map<string, real>
  {
    map["urgency" := urgency, "processing_time" := processingTime, "machine_load" := load]
  }

  /**
   * The priority the fuzzy rule gives a job, given the inference
   * configuration, the registration order and the machine loads: inference
   * against the target machine's load, or the neutral priority when there
   * is no target machine.
   */
  ghost function InferredPriority(config: Config, job: Job, order: seq<string>, loads: map<string, real>, now: real): real
  {
    var target := TargetMachine(job.machineRequired, order);
    if target.Some? && target.value in loads then
      InferValue(config, PriorityInputs(job.CalculateUrgency(now), job.processingTime, loads[target.value]))
    else
      NeutralPriority
  }

  /**
   * The machine a job is evaluated against and placed on: the required
   * machine when it is registered, otherwise the first registered machine,
   * and none when no machine is registered.
   */
  function TargetMachine(required: string, order: seq<string>): (t: Option<string>)
    ensures t.None? <==> order == []
    ensures t.Some? ==> t.value in order
    ensures required in order ==> t == Some(required)
    ensures required !in order && order != [] ==> t == Some(order[0])
  {
    if required in order then Some(required)
    else if order != [] then Some(order[0])
    else None
  }

  /** The jobs whose status is pending, in list order. */
  function PendingJobs(jobs: seq<Job>): (p: seq<Job>)
    reads jobs
    ensures |p| <= |jobs|
    ensures forall i :: 0 <= i < |p| ==> p[i] in jobs
    ensures forall j :: j in p ==> j.status == Pending
    ensures forall i :: 0 <= i < |jobs| && jobs[i].status == Pending ==> jobs[i] in p
  {
    if jobs == [] then []
    else (if jobs[0].status == Pending then [jobs[0]] else []) + PendingJobs(jobs[1..])
  }

  /** Sort keys for a descending sort on priority: the negated priorities. */
  function PriorityKeys(jobs: seq<Job>): (keys: seq<real>)
    reads jobs
    ensures |keys| == |jobs|
    ensures forall i :: 0 <= i < |jobs| ==> keys[i] == -jobs[i].priorityScore
  {
    if jobs == [] then [] else [-jobs[0].priorityScore] + PriorityKeys(jobs[1..])
  }

  /** Sort keys for FCFS: the arrival times. */
  function ArrivalKeys(jobs: seq<Job>): (keys: seq<real>)
    ensures |keys| == |jobs|
    ensures forall i :: 0 <= i < |jobs| ==> keys[i] == jobs[i].arrivalTime
  {
    if jobs == [] then [] else [jobs[0].arrivalTime] + ArrivalKeys(jobs[1..])
  }

  /** Sort keys for EDD: the due dates. */
  function DueKeys(jobs: seq<Job>): (keys: seq<real>)
    ensures |keys| == |jobs|
    ensures forall i :: 0 <= i < |jobs| ==> keys[i] == jobs[i].dueDate
  {
    if jobs == [] then [] else [jobs[0].dueDate] + DueKeys(jobs[1..])
  }

  /** Each job paired with its key. */
  function Keyed(jobs: seq<Job>, keys: seq<real>): (s: seq<(real, Job)>)
    requires |keys| == |jobs|
    ensures |s| == |jobs|
    ensures forall i :: 0 <= i < |jobs| ==> s[i] == (keys[i], jobs[i])
  {
    if jobs == [] then [] else [(keys[0], jobs[0])] + Keyed(jobs[1..], keys[1..])
  }

  /** The jobs in the order a stable sort on the keys gives. */
  function SortedJobs(jobs: seq<Job>, keys: seq<real>): (sorted: seq<Job>)
    requires |keys| == |jobs|
    ensures multiset(sorted) == multiset(jobs)
  {
    var keyed := Keyed(jobs, keys);
    assert Items(keyed) == jobs;
    SortByKeyItems(keyed);
    Items(SortByKey(keyed))
  }

  /** Every job of the order is one of the input jobs. */
  lemma SortedJobsFromInput(jobs: seq<Job>, keys: seq<real>)
    requires |keys| == |jobs|
    ensures forall i :: 0 <= i < |SortedJobs(jobs, keys)| ==> SortedJobs(jobs, keys)[i] in jobs
  {
    var sorted := SortedJobs(jobs, keys);
    forall i | 0 <= i < |sorted|
      ensures sorted[i] in jobs
    {
      assert sorted[i] in multiset(sorted);
    }
  }

  /**
   * Sorting by key puts the keys in ascending order: a job placed before
   * another has a key that is not larger, for every key that is a
   * function of the job.
   */
  lemma SortedKeysAscend(jobs: seq<Job>, keys: seq<real>, i: nat, k: nat) returns (a: nat, b: nat)
    requires |keys| == |jobs|
    requires 0 <= i < k < |jobs|
    ensures a < |jobs| && b < |jobs|
    ensures SortedJobs(jobs, keys)[i] == jobs[a] && SortedJobs(jobs, keys)[k] == jobs[b]
    ensures keys[a] <= keys[b]
  {
    var keyed := Keyed(jobs, keys);
    var s := SortByKey(keyed);
    assert SortedJobs(jobs, keys) == Items(s);
    SortedPairsComeFromInput(keyed, i);
    SortedPairsComeFromInput(keyed, k);
    a :| 0 <= a < |keyed| && keyed[a] == s[i];
    b :| 0 <= b < |keyed| && keyed[b] == s[k];
  }

  /** The fuzzy rule's order: priorities never increase along the schedule. */
  lemma DescendingPriorities(jobs: seq<Job>)
    ensures forall i, k :: 0 <= i < k < |SortedJobs(jobs, PriorityKeys(jobs))| ==>
      SortedJobs(jobs, PriorityKeys(jobs))[i].priorityScore >= SortedJobs(jobs, PriorityKeys(jobs))[k].priorityScore
  {
    var order := SortedJobs(jobs, PriorityKeys(jobs));
    forall i, k | 0 <= i < k < |order|
      ensures order[i].priorityScore >= order[k].priorityScore
    {
      var a, b := SortedKeysAscend(jobs, PriorityKeys(jobs), i, k);
    }
  }

  /** FCFS order: arrival times never decrease along the schedule. */
  lemma AscendingArrivals(jobs: seq<Job>)
    ensures forall i, k :: 0 <= i < k < |SortedJobs(jobs, ArrivalKeys(jobs))| ==>
      SortedJobs(jobs, ArrivalKeys(jobs))[i].arrivalTime <= SortedJobs(jobs, ArrivalKeys(jobs))[k].arrivalTime
  {
    var order := SortedJobs(jobs, ArrivalKeys(jobs));
    forall i, k | 0 <= i < k < |order|
      ensures order[i].arrivalTime <= order[k].arrivalTime
    {
      var a, b := SortedKeysAscend(jobs, ArrivalKeys(jobs), i, k);
    }
  }

  /** EDD order: due dates never decrease along the schedule. */
  lemma AscendingDueDates(jobs: seq<Job>)
    ensures forall i, k :: 0 <= i < k < |SortedJobs(jobs, DueKeys(jobs))| ==>
      SortedJobs(jobs, DueKeys(jobs))[i].dueDate <= SortedJobs(jobs, DueKeys(jobs))[k].dueDate
  {
    var order := SortedJobs(jobs, DueKeys(jobs));
    forall i, k | 0 <= i < k < |order|
      ensures order[i].dueDate <= order[k].dueDate
    {
      var a, b := SortedKeysAscend(jobs, DueKeys(jobs), i, k);
    }
  }

  /**
   * A job is placed: it is scheduled on its target machine, starts no
   * earlier than both `now` and its arrival, and completes its processing
   * time after it starts.
   */
  predicate Placed(job: Job, order: seq<string>, now: real)
    reads job
  {
    var target := TargetMachine(job.machineRequired, order);
    target.Some? && job.status == Scheduled && job.assignedMachine == target &&
    job.startTime.Some? && job.startTime.value >= Max(now, job.arrivalTime) &&
    job.completionTime == Some(job.startTime.value + job.processingTime)
  }

  /** What assigning a job sets: its status, its machine and its time window. */
  datatype Placement = Placement(status: Status, machine: Option<string>, start: Option<real>, completion: Option<real>)

  function PlacementOf(job: Job): Placement
    reads job`status, job`assignedMachine, job`startTime, job`completionTime
  {
    Placement(job.status, job.assignedMachine, job.startTime, job.completionTime)
  }

  /** Status, machine and time window of a job are as they were. */
  twostate predicate SamePlacement(job: Job)
    reads job
  {
    PlacementOf(job) == old(PlacementOf(job))
  }

  /** The summary statistics of a schedule. */
  datatype Summary = Summary(
    totalJobs: nat,
    scheduledCount: nat,
    pendingCount: nat,
    totalMachines: nat,
    makespanHours: real,
    averagePriority: real,
    machineUtilization: map<string, real>)

  /** Number of jobs that are scheduled, in progress or completed. */
  function CountScheduled(jobs: seq<Job>): nat
    reads jobs
  {
    if jobs == [] then 0 else (if jobs[0].status != Pending then 1 else 0) + CountScheduled(jobs[1..])
  }

  /** The scheduled count depends on the statuses alone. */
  twostate lemma {:induction false} SameStatusesSameCount(jobs: seq<Job>)
    requires forall i :: 0 <= i < |jobs| ==> jobs[i].status == old(jobs[i].status)
    ensures CountScheduled(jobs) == old(CountScheduled(jobs))
  {
    if jobs != [] {
      SameStatusesSameCount(jobs[1..]);
    }
  }

  /** Number of pending jobs. */
  function CountPending(jobs: seq<Job>): nat
    reads jobs
  {
    if jobs == [] then 0 else (if jobs[0].status == Pending then 1 else 0) + CountPending(jobs[1..])
  }

  /** Every job has one of the four statuses, so the two counts make up the whole list. */
  lemma {:induction false} CountsPartition(jobs: seq<Job>)
    ensures CountScheduled(jobs) + CountPending(jobs) == |jobs|
  {
    if jobs != [] {
      CountsPartition(jobs[1..]);
    }
  }

  /** No job is pending exactly when every job counts as scheduled. */
  lemma {:induction false} NoPendingJobs(jobs: seq<Job>)
    ensures CountPending(jobs) == 0 <==> forall i :: 0 <= i < |jobs| ==> jobs[i].status != Pending
    ensures CountPending(jobs) == 0 <==> CountScheduled(jobs) == |jobs|
  {
    CountsPartition(jobs);
    if jobs != [] {
      NoPendingJobs(jobs[1..]);
      assert forall i :: 1 <= i < |jobs| ==> jobs[i] == jobs[1..][i - 1];
    }
  }

  /** Sum of the priority scores. */
  function PrioritySum(jobs: seq<Job>): real
    reads jobs
  {
    if jobs == [] then 0.0 else jobs[0].priorityScore + PrioritySum(jobs[1..])
  }

  /** With every priority in [lo, hi], the sum lies between n * lo and n * hi. */
  lemma {:induction false} PrioritySumBounds(jobs: seq<Job>, lo: real, hi: real)
    requires forall i :: 0 <= i < |jobs| ==> lo <= jobs[i].priorityScore <= hi
    ensures |jobs| as real * lo <= PrioritySum(jobs) <= |jobs| as real * hi
  {
    if jobs != [] {
      var rest := jobs[1..];
      assert forall i :: 0 <= i < |rest| ==> rest[i] == jobs[i + 1];
      PrioritySumBounds(rest, lo, hi);
      var m := |rest| as real;
      assert PrioritySum(jobs) == jobs[0].priorityScore + PrioritySum(rest);
      assert |jobs| as real * lo == m * lo + lo by {
        Distribute(lo, m, 1.0);
      }
      assert |jobs| as real * hi == m * hi + hi by {
        Distribute(hi, m, 1.0);
      }
    }
  }

  /** The average priority of a non-empty list lies within the range of its priorities. */
  lemma AveragePriorityBounds(jobs: seq<Job>, lo: real, hi: real)
    requires jobs != []
    ensures (forall i :: 0 <= i < |jobs| ==> lo <= jobs[i].priorityScore <= hi) ==>
      lo <= PrioritySum(jobs) / |jobs| as real <= hi
  {
    if forall i :: 0 <= i < |jobs| ==> lo <= jobs[i].priorityScore <= hi {
      PrioritySumBounds(jobs, lo, hi);
      var n := |jobs| as real;
      assert lo * n <= PrioritySum(jobs) <= hi * n;
      QuotientBounds(PrioritySum(jobs), n, lo, hi);
    }
  }

  /** The utilization of a machine that keeps its bookkeeping is a fraction. */
  lemma UtilizationsInRange(machines: map<string, Machine>)
    ensures forall id :: id in machines && machines[id].Valid() ==> 0.0 <= machines[id].utilization <= 1.0
  {
    forall id | id in machines && machines[id].Valid()
      ensures 0.0 <= machines[id].utilization <= 1.0
    {
      TotalTimeNonNegative(machines[id].scheduledJobs);
    }
  }

  /** The latest completion time among the jobs that have one. */
  function LatestCompletion(jobs: seq<Job>): (latest: Option<real>)
    reads jobs
    ensures latest.None? <==> forall i :: 0 <= i < |jobs| ==> jobs[i].completionTime.None?
    ensures latest.Some? ==> forall i :: 0 <= i < |jobs| && jobs[i].completionTime.Some? ==>
      jobs[i].completionTime.value <= latest.value
    ensures latest.Some? ==> exists i :: 0 <= i < |jobs| && jobs[i].completionTime == latest
  {
    if jobs == [] then None
    else
      var rest := LatestCompletion(jobs[1..]);
      match jobs[0].completionTime
      case None => rest
      case Some(c) => if rest.Some? then Some(Max(c, rest.value)) else Some(c)
  }

  /**
   * Hours from `now` to the latest completion among the jobs, or 0 when no
   * job has a completion time.
   */
  function Makespan(jobs: seq<Job>, now: real): (m: real)
    reads jobs
    ensures (forall i :: 0 <= i < |jobs| ==> jobs[i].completionTime.None?) ==> m == 0.0
    ensures forall i :: 0 <= i < |jobs| && jobs[i].completionTime.Some? ==> jobs[i].completionTime.value - now <= m
    ensures (exists i :: 0 <= i < |jobs| && jobs[i].completionTime.Some?) ==>
      exists i :: 0 <= i < |jobs| && jobs[i].completionTime == Some(now + m)
  {
    var latest := LatestCompletion(jobs);
    if latest.Some? then latest.value - now else 0.0
  }

  /** The mean priority of the jobs, or 0 without jobs. */
  function AveragePriority(jobs: seq<Job>): (a: real)
    reads jobs
    ensures jobs == [] ==> a == 0.0
    ensures (forall i :: 0 <= i < |jobs| ==> 0.0 <= jobs[i].priorityScore <= 100.0) ==> 0.0 <= a <= 100.0
  {
    if |jobs| > 0 then
      AveragePriorityBounds(jobs, 0.0, 100.0);
      PrioritySum(jobs) / |jobs| as real
    else 0.0
  }

  /** The utilization of every machine, by identifier. */
  function Utilizations(machines: map<string, Machine>): (u: map<string, real>)
    reads machines.Values
    ensures u.Keys == machines.Keys
    ensures forall id :: id in u && machines[id].Valid() ==> 0.0 <= u[id] <= 1.0
  {
    UtilizationsInRange(machines);
    map id | id in machines :: machines[id].utilization
  }

  /** The scheduler. */
  class FuzzyScheduler {
    const fuzzySystem: FuzzyInferenceSystem
    /** The configuration the inference system holds: the scheduling system. */
    ghost const config: Config
    var machines: map<string, Machine>
    /** The keys of `machines` in registration order. */
    var machineOrder: seq<string>
    var jobs: seq<Job>
    var scheduledJobs: seq<Job>
    /** The clock reading taken at construction, in hours. */
    const currentTime: real

    /** The inference system holds the scheduling system, whose output universe is [0, 100]. */
    ghost predicate FuzzyReady()
      reads fuzzySystem, fuzzySystem.variables.Values, fuzzySystem.outputVariable
    {
      fuzzySystem.outputVariable != null && fuzzySystem.Value() == config &&
      config.output.lo == 0.0 && config.output.hi == 100.0
    }

    /**
     * Every machine is registered under its own identifier, in
     * registration order, and keeps its bookkeeping.
     */
    ghost predicate Valid()
      reads this`machines, this`machineOrder, machines.Values
    {
      (forall id :: id in machines <==> id in machineOrder) &&
      (forall a, b :: 0 <= a < b < |machineOrder| ==> machineOrder[a] != machineOrder[b]) &&
      (forall id :: id in machines ==> machines[id].machineId == id && machines[id].Valid())
    }

    /** A scheduler over the scheduling inference system, with no machines and no jobs, at time `now`. */
    constructor (now: real)
      ensures Valid() && FuzzyReady() && fresh(fuzzySystem) && config == SchedulingConfig
      ensures machines == map[] && machineOrder == [] && jobs == [] && scheduledJobs == []
      ensures currentTime == now
    {
      var fis := CreateSchedulingFuzzySystem();
      fuzzySystem := fis;
      config := SchedulingConfig;
      machines := map[];
      machineOrder := [];
      jobs := [];
      scheduledJobs := [];
      currentTime := now;
    }

    /**
     * Registers a machine under its identifier; a machine with an
     * identifier already registered replaces the old one in its place.
     */
    method AddMachine(machine: Machine)
      requires Valid() && machine.Valid()
      modifies this
      ensures Valid()
      ensures machines == old(machines)[machine.machineId := machine]
      ensures machineOrder == if machine.machineId in old(machines) then old(machineOrder) else old(machineOrder) + [machine.machineId]
      ensures jobs == old(jobs) && scheduledJobs == old(scheduledJobs)
    {
      if machine.machineId !in machines {
        machineOrder := machineOrder + [machine.machineId];
      }
      machines := machines[machine.machineId := machine];
    }

    /** Appends a job. */
    method AddJob(job: Job)
      requires Valid()
      modifies this
      ensures Valid()
      ensures jobs == old(jobs) + [job]
      ensures machines == old(machines) && machineOrder == old(machineOrder) && scheduledJobs == old(scheduledJobs)
    {
      jobs := jobs + [job];
    }

    /** Appends several jobs in order. */
    method AddJobs(newJobs: seq<Job>)
      requires Valid()
      modifies this
      ensures Valid()
      ensures jobs == old(jobs) + newJobs
      ensures machines == old(machines) && machineOrder == old(machineOrder) && scheduledJobs == old(scheduledJobs)
    {
      jobs := jobs + newJobs;
    }

    /**
     * The fuzzy priority of a job on a machine: inference on the job's
     * urgency now, its processing time and the machine's load; it is a
     * value in [0, 100].
     */
    method CalculateJobPriority(job: Job, machine: Machine) returns (priority: real)
      requires FuzzyReady()
      ensures priority == InferValue(config,
        PriorityInputs(job.CalculateUrgency(currentTime), job.processingTime, machine.GetCurrentLoad()))
      ensures 0.0 <= priority <= 100.0
    {
      var inputs := PriorityInputs(job.CalculateUrgency(currentTime), job.processingTime, machine.GetCurrentLoad());
      priority := fuzzySystem.Infer(inputs);
    }

    /** The load of every registered machine, by identifier. */
    ghost function Loads(): (loads: map<string, real>)
      reads this, machines.Values
      ensures loads.Keys == machines.Keys
    {
      map id | id in machines :: machines[id].GetCurrentLoad()
    }

    /**
     * Places a job on its target machine at the machine's first free slot
     * from max(now, arrival) (PlaceOn states how the machine changes). The
     * job succeeds exactly when some machine is registered, because a
     * machine always finds a slot. Without a machine nothing changes.
     */
    method AssignJobToMachine(job: Job) returns (placed: bool)
      requires Valid()
      modifies job`status, job`assignedMachine, job`startTime, job`completionTime, machines.Values
      ensures Valid()
      ensures placed <==> machineOrder != []
      ensures placed ==> Placed(job, machineOrder, currentTime)
      ensures !placed ==> SamePlacement(job)
    {
      var earliest := Max(currentTime, job.arrivalTime);
      var id: string;
      if job.machineRequired in machines {
        id := job.machineRequired;
      } else if machineOrder != [] {
        // The source tries every machine in turn, but a machine always
        // offers a slot, so the first registered machine takes the job.
        id := machineOrder[0];
      } else {
        return false;
      }
      PlaceOn(job, machines[id], earliest);
      return true;
    }

    /** Books a job on a machine at its first free slot from `earliest`. */
    method PlaceOn(job: Job, machine: Machine, earliest: real)
      requires machine.Valid()
      modifies job`status, job`assignedMachine, job`startTime, job`completionTime, machine
      ensures machine.Valid()
      ensures machine.scheduledJobs == old(machine.scheduledJobs) + [job]
      ensures job.status == Scheduled && job.assignedMachine == Some(machine.machineId)
      ensures job.startTime.Some? && job.startTime.value >= earliest
      ensures job.completionTime == Some(job.startTime.value + job.processingTime)
      ensures forall other :: other in old(machine.scheduledJobs) && other != job && other.startTime.Some? && other.completionTime.Some? ==>
        other.completionTime.value <= job.startTime.value || job.completionTime.value <= other.startTime.value
    {
      var slot := machine.GetAvailableSlot(job.processingTime, earliest);
      var start := slot.value;
      job.startTime := Some(start);
      job.completionTime := Some(start + job.processingTime);
      machine.AddJob(job);
    }

    /** The fuzzy rule's first pass: every job gets its fuzzy priority. */
    method ComputeFuzzyPriorities(pending: seq<Job>, ghost loads: map<string, real>)
      requires Valid() && FuzzyReady() && loads == Loads()
      modifies pending`priorityScore
      ensures forall j :: j in pending ==> j.priorityScore == InferredPriority(config, j, machineOrder, loads, currentTime)
    {
      for i := 0 to |pending|
        invariant forall k :: 0 <= k < i ==> pending[k].priorityScore == InferredPriority(config, pending[k], machineOrder, loads, currentTime)
      {
        SetFuzzyPriority(pending[i], loads);
      }
    }

    /** Sets the fuzzy priority of one job: inference against its target machine, or the neutral priority without one. */
    method SetFuzzyPriority(job: Job, ghost loads: map<string, real>)
      requires Valid() && FuzzyReady() && loads == Loads()
      modifies job`priorityScore
      ensures job.priorityScore == InferredPriority(config, job, machineOrder, loads, currentTime)
    {
      if job.machineRequired in machines {
        job.priorityScore := CalculateJobPriority(job, machines[job.machineRequired]);
      } else if machineOrder != [] {
        job.priorityScore := CalculateJobPriority(job, machines[machineOrder[0]]);
      } else {
        job.priorityScore := NeutralPriority;
      }
    }

    /**
     * Places the jobs in the given order, each on its target machine at
     * its first free slot; every job is placed when a machine is
     * registered, and none otherwise. Priorities are left as they are.
     */
    method PlaceInOrder(sorted: seq<Job>) returns (scheduled: seq<Job>)
      requires Valid()
      modifies sorted`status, sorted`assignedMachine, sorted`startTime, sorted`completionTime, machines.Values
      ensures Valid()
      ensures machineOrder != [] ==> scheduled == sorted
      ensures machineOrder != [] ==> forall k :: 0 <= k < |sorted| ==> Placed(sorted[k], machineOrder, currentTime)
      ensures machineOrder == [] ==> scheduled == [] && forall j :: j in sorted ==> SamePlacement(j)
      ensures forall j :: j in sorted ==> j.priorityScore == old(j.priorityScore)
    {
      ghost var initial := map j | j in sorted :: PlacementOf(j);
      scheduled := [];
      for i := 0 to |sorted|
        invariant Valid()
        invariant scheduled == if machineOrder != [] then sorted[..i] else []
        invariant machineOrder != [] ==> forall k :: 0 <= k < i ==> Placed(sorted[k], machineOrder, currentTime)
        invariant machineOrder == [] ==> forall j :: j in sorted ==> j in initial && PlacementOf(j) == initial[j]
      {
        scheduled := PlaceNext(sorted, i, sorted[i], scheduled, initial);
      }
      assert sorted[..|sorted|] == sorted;
    }

    /**
     * One round of PlaceInOrder: assigns the i-th job, which extends the
     * jobs placed so far when a machine is registered and changes nothing
     * otherwise.
     */
    method PlaceNext(sorted: seq<Job>, i: nat, job: Job, scheduled: seq<Job>, ghost initial: map<Job, Placement>) returns (next: seq<Job>)
      requires Valid() && i < |sorted| && job == sorted[i]
      requires scheduled == if machineOrder != [] then sorted[..i] else []
      requires machineOrder != [] ==> forall k :: 0 <= k < i ==> Placed(sorted[k], machineOrder, currentTime)
      requires machineOrder == [] ==> forall j :: j in sorted ==> j in initial && PlacementOf(j) == initial[j]
      modifies job`status, job`assignedMachine, job`startTime, job`completionTime, machines.Values
      ensures Valid()
      ensures next == if machineOrder != [] then sorted[..i + 1] else []
      ensures machineOrder != [] ==> forall k :: 0 <= k < i + 1 ==> Placed(sorted[k], machineOrder, currentTime)
      ensures machineOrder == [] ==> forall j :: j in sorted ==> j in initial && PlacementOf(j) == initial[j]
    {
      var placed := AssignJobToMachine(job);
      if placed {
        next := scheduled + [job];
        assert sorted[..i + 1] == sorted[..i] + [job];
        forall k | 0 <= k < i + 1
          ensures Placed(sorted[k], machineOrder, currentTime)
        {
          if sorted[k] != job {
            assert old(Placed(sorted[k], machineOrder, currentTime));
          }
        }
      } else {
        next := scheduled;
      }
    }

    /**
     * The fuzzy rule: every job first gets its fuzzy priority, then the
     * jobs are placed in descending priority; all of them are placed when
     * a machine is registered, none otherwise. The jobs placed are
     * returned in placement order.
     */
    method ScheduleFuzzyPriority(pending: seq<Job>) returns (scheduled: seq<Job>)
      requires Valid() && FuzzyReady()
      modifies pending, machines.Values
      ensures Valid()
      ensures machineOrder != [] ==> multiset(scheduled) == multiset(pending)
      ensures forall k :: 0 <= k < |scheduled| ==> scheduled[k] in pending
      ensures machineOrder != [] ==> forall j :: j in pending ==> Placed(j, machineOrder, currentTime)
      ensures machineOrder == [] ==> scheduled == [] && forall j :: j in pending ==> SamePlacement(j)
      ensures forall j :: j in pending ==> j.priorityScore == InferredPriority(config, j, machineOrder, old(Loads()), currentTime)
      ensures forall i, k :: 0 <= i < k < |scheduled| ==> scheduled[i].priorityScore >= scheduled[k].priorityScore
    {
      ghost var loads := Loads();
      ComputeFuzzyPriorities(pending, loads);
      var sorted := SortByPriority(pending);
      forall j | j in pending
        ensures j in sorted
      {
        assert j in multiset(pending);
      }
      scheduled := PlaceInOrder(sorted);
    }

    /**
     * First come first served: the jobs are placed by arrival time, each
     * at the neutral priority.
     */
    method ScheduleFcfs(pending: seq<Job>) returns (scheduled: seq<Job>)
      requires Valid()
      modifies pending, machines.Values
      ensures Valid()
      ensures machineOrder != [] ==> multiset(scheduled) == multiset(pending)
      ensures forall k :: 0 <= k < |scheduled| ==> scheduled[k] in pending
      ensures machineOrder != [] ==> forall j :: j in pending ==> Placed(j, machineOrder, currentTime)
      ensures machineOrder == [] ==> scheduled == [] && forall j :: j in pending ==> SamePlacement(j)
      ensures forall j :: j in pending ==> j.priorityScore == NeutralPriority
      ensures forall i, k :: 0 <= i < k < |scheduled| ==> scheduled[i].arrivalTime <= scheduled[k].arrivalTime
    {
      var sorted := SortByArrival(pending);
      forall j | j in pending
        ensures j in sorted
      {
        assert j in multiset(pending);
      }
      for i := 0 to |sorted|
        modifies pending`priorityScore
        invariant forall k :: 0 <= k < i ==> sorted[k].priorityScore == NeutralPriority
      {
        sorted[i].priorityScore := NeutralPriority;
      }
      scheduled := PlaceInOrder(sorted);
    }

    /**
     * Earliest due date: the jobs are placed by due date, each at ten
     * times its urgency.
     */
    method ScheduleEdd(pending: seq<Job>) returns (scheduled: seq<Job>)
      requires Valid()
      modifies pending, machines.Values
      ensures Valid()
      ensures machineOrder != [] ==> multiset(scheduled) == multiset(pending)
      ensures forall k :: 0 <= k < |scheduled| ==> scheduled[k] in pending
      ensures machineOrder != [] ==> forall j :: j in pending ==> Placed(j, machineOrder, currentTime)
      ensures machineOrder == [] ==> scheduled == [] && forall j :: j in pending ==> SamePlacement(j)
      ensures forall j :: j in pending ==> j.priorityScore == j.CalculateUrgency(currentTime) * 10.0
      ensures forall i, k :: 0 <= i < k < |scheduled| ==> scheduled[i].dueDate <= scheduled[k].dueDate
    {
      var sorted := SortByDueDate(pending);
      forall j | j in pending
        ensures j in sorted
      {
        assert j in multiset(pending);
      }
      for i := 0 to |sorted|
        modifies pending`priorityScore
        invariant forall k :: 0 <= k < i ==> sorted[k].priorityScore == sorted[k].CalculateUrgency(currentTime) * 10.0
      {
        sorted[i].priorityScore := sorted[i].CalculateUrgency(currentTime) * 10.0;
      }
      scheduled := PlaceInOrder(sorted);
    }

    /**
     * Schedules every pending job with the named rule and appends the jobs
     * placed to the schedule. An unknown name is an error and changes
     * nothing. With a machine registered every pending job is placed, so no
     * job is left pending; without one nothing is placed. Jobs that were
     * not pending are not touched.
     */
    method ScheduleJobs(algorithm: string) returns (r: Result<seq<Job>>)
      requires Valid() && FuzzyReady()
      modifies this`scheduledJobs, jobs, machines.Values
      ensures Valid()
      ensures ParseAlgorithm(algorithm).None? ==>
        r == Failure("Unknown algorithm: " + algorithm) && scheduledJobs == old(scheduledJobs) &&
        unchanged(jobs) && unchanged(machines.Values)
      ensures ParseAlgorithm(algorithm).Some? ==> r.Success? && scheduledJobs == old(scheduledJobs) + r.value
      ensures r.Success? && machineOrder != [] ==> multiset(r.value) == multiset(old(PendingJobs(jobs)))
      ensures r.Success? && machineOrder != [] ==> forall k :: 0 <= k < |r.value| ==> Placed(r.value[k], machineOrder, currentTime)
      ensures r.Success? && machineOrder != [] ==> forall i :: 0 <= i < |jobs| ==> jobs[i].status != Pending
      ensures r.Success? && machineOrder == [] ==> r.value == [] && forall i :: 0 <= i < |jobs| ==> jobs[i].status == old(jobs[i].status)
      ensures forall k :: r.Success? && 0 <= k < |r.value| ==> r.value[k] in jobs
      ensures forall i :: 0 <= i < |jobs| && old(jobs[i].status) != Pending ==> unchanged(jobs[i])
      ensures ParseAlgorithm(algorithm) == Some(FuzzyPriority) ==>
        (forall j :: j in old(PendingJobs(jobs)) ==> j.priorityScore == InferredPriority(config, j, machineOrder, old(Loads()), currentTime)) &&
        forall i, k :: 0 <= i < k < |r.value| ==> r.value[i].priorityScore >= r.value[k].priorityScore
      ensures ParseAlgorithm(algorithm) == Some(Fcfs) ==>
        (forall j :: j in old(PendingJobs(jobs)) ==> j.priorityScore == NeutralPriority) &&
        forall i, k :: 0 <= i < k < |r.value| ==> r.value[i].arrivalTime <= r.value[k].arrivalTime
      ensures ParseAlgorithm(algorithm) == Some(Edd) ==>
        (forall j :: j in old(PendingJobs(jobs)) ==> j.priorityScore == j.CalculateUrgency(currentTime) * 10.0) &&
        forall i, k :: 0 <= i < k < |r.value| ==> r.value[i].dueDate <= r.value[k].dueDate
    {
      var pending := PendingJobs(jobs);
      var parsed := ParseAlgorithm(algorithm);
      if parsed.None? {
        return Failure("Unknown algorithm: " + algorithm);
      }
      var scheduled := Dispatch(parsed.value, pending);
      scheduledJobs := scheduledJobs + scheduled;
      r := Success(scheduled);
    }

    /** Runs the given rule on the given jobs. */
    method Dispatch(algorithm: Algorithm, pending: seq<Job>) returns (scheduled: seq<Job>)
      requires Valid() && FuzzyReady()
      modifies pending, machines.Values
      ensures Valid()
      ensures machineOrder != [] ==> multiset(scheduled) == multiset(pending)
      ensures forall k :: 0 <= k < |scheduled| ==> scheduled[k] in pending
      ensures machineOrder != [] ==> forall j :: j in pending ==> Placed(j, machineOrder, currentTime)
      ensures machineOrder == [] ==> scheduled == [] && forall j :: j in pending ==> SamePlacement(j)
      ensures algorithm == FuzzyPriority ==>
        (forall j :: j in pending ==> j.priorityScore == InferredPriority(config, j, machineOrder, old(Loads()), currentTime)) &&
        forall i, k :: 0 <= i < k < |scheduled| ==> scheduled[i].priorityScore >= scheduled[k].priorityScore
      ensures algorithm == Fcfs ==>
        (forall j :: j in pending ==> j.priorityScore == NeutralPriority) &&
        forall i, k :: 0 <= i < k < |scheduled| ==> scheduled[i].arrivalTime <= scheduled[k].arrivalTime
      ensures algorithm == Edd ==>
        (forall j :: j in pending ==> j.priorityScore == j.CalculateUrgency(currentTime) * 10.0) &&
        forall i, k :: 0 <= i < k < |scheduled| ==> scheduled[i].dueDate <= scheduled[k].dueDate
    {
      match algorithm
      case FuzzyPriority => scheduled := ScheduleFuzzyPriority(pending);
      case Fcfs => scheduled := ScheduleFcfs(pending);
      case Edd => scheduled := ScheduleEdd(pending);
    }

    /**
     * The schedule statistics: the jobs by status, the machines, the
     * makespan from now to the latest completion among the scheduled jobs
     * (0 when none has a completion time), the mean priority over all jobs
     * (0 without jobs) and the utilization of every machine.
     */
    function GetScheduleSummary(): (s: Summary)
      reads this, jobs, scheduledJobs, machines.Values
      ensures s.totalJobs == |jobs| && s.totalMachines == |machines|
      ensures s.scheduledCount + s.pendingCount == s.totalJobs
      ensures s.pendingCount == 0 <==> forall i :: 0 <= i < |jobs| ==> jobs[i].status != Pending
      ensures (forall i :: 0 <= i < |scheduledJobs| ==> scheduledJobs[i].completionTime.None?) ==> s.makespanHours == 0.0
      ensures forall i :: 0 <= i < |scheduledJobs| && scheduledJobs[i].completionTime.Some? ==>
        scheduledJobs[i].completionTime.value - currentTime <= s.makespanHours
      ensures (exists i :: 0 <= i < |scheduledJobs| && scheduledJobs[i].completionTime.Some?) ==>
        exists i :: 0 <= i < |scheduledJobs| && scheduledJobs[i].completionTime == Some(currentTime + s.makespanHours)
      ensures jobs == [] ==> s.averagePriority == 0.0
      ensures (forall i :: 0 <= i < |jobs| ==> 0.0 <= jobs[i].priorityScore <= 100.0) ==> 0.0 <= s.averagePriority <= 100.0
      ensures s.machineUtilization.Keys == machines.Keys
      ensures Valid() ==> forall id :: id in s.machineUtilization ==> 0.0 <= s.machineUtilization[id] <= 1.0
    {
      CountsPartition(jobs);
      NoPendingJobs(jobs);
      Summary(|jobs|, CountScheduled(jobs), CountPending(jobs), |machines|,
        Makespan(scheduledJobs, currentTime), AveragePriority(jobs), Utilizations(machines))
    }

    /** The first job with the given identifier, if any. */
    method GetJobById(jobId: string) returns (r: Option<Job>)
      ensures FindJob(jobs, jobId).None? ==> r.None?
      ensures FindJob(jobs, jobId).Some? ==> r == Some(jobs[FindJob(jobs, jobId).value])
    {
      for i := 0 to |jobs|
        invariant forall k :: 0 <= k < i ==> jobs[k].jobId != jobId
      {
        if jobs[i].jobId == jobId {
          return Some(jobs[i]);
        }
      }
      return None;
    }

    /** The jobs booked on the registered machines. */
    ghost function Booked(): set<Job>
      reads this, machines.Values
    {
      set id, j | id in machines && j in machines[id].scheduledJobs :: j
    }

    /** Every job on a registered machine belongs to `booked`. */
    ghost predicate BookedWithin(booked: set<Job>)
      reads this`machines, machines.Values
    {
      forall id, k :: id in machines && 0 <= k < |machines[id].scheduledJobs| ==> machines[id].scheduledJobs[k] in booked
    }

    /**
     * The first half of rescheduling: every job of the list that is
     * scheduled on a registered machine is removed, by identifier, from
     * that machine.
     */
    method DetachScheduled()
      requires Valid() && FuzzyReady()
      modifies machines.Values, Booked()
      ensures Valid() && FuzzyReady() && BookedWithin(old(Booked()))
      ensures forall i :: 0 <= i < |jobs| && old(jobs[i].status) == Pending ==> jobs[i].status == Pending
      ensures machineOrder == [] ==> CountScheduled(jobs) == old(CountScheduled(jobs))
    {
      ghost var booked := Booked();
      if machineOrder == [] {
        assert machines.Values == {} && booked == {};
      }
      forall id, k | id in machines && 0 <= k < |machines[id].scheduledJobs|
        ensures machines[id].scheduledJobs[k] in booked
      {
        assert machines[id].scheduledJobs[k] in machines[id].scheduledJobs;
      }
      for i := 0 to |jobs|
        invariant Valid() && FuzzyReady() && BookedWithin(booked)
        invariant forall k :: 0 <= k < |jobs| && old(jobs[k].status) == Pending ==> jobs[k].status == Pending
      {
        DetachJob(jobs[i], booked);
      }
    }

    /**
     * Removes a job that is scheduled on a registered machine from that
     * machine, by identifier; the machine drops its first job with that
     * identifier. Machines only lose jobs.
     */
    method DetachJob(job: Job, ghost booked: set<Job>)
      requires Valid() && FuzzyReady() && BookedWithin(booked)
      modifies machines.Values, booked
      ensures Valid() && FuzzyReady() && BookedWithin(booked)
      ensures forall i :: 0 <= i < |jobs| && old(jobs[i].status) == Pending ==> jobs[i].status == Pending
    {
      if job.status == Scheduled && job.assignedMachine.Some? && job.assignedMachine.value != "" &&
        job.assignedMachine.value in machines
      {
        var machine := machines[job.assignedMachine.value];
        var _ := machine.RemoveJob(job.jobId);
      }
    }

    /**
     * Detaches every scheduled job from its registered machine (the
     * machine drops its first job with that identifier), clears the
     * schedule and schedules the pending jobs again by fuzzy priority.
     * With a machine registered no job is left pending afterwards, so when
     * none was pending before, the number of scheduled jobs is unchanged.
     */
    method Reschedule()
      requires Valid() && FuzzyReady()
      modifies this`scheduledJobs, jobs, machines.Values, Booked()
      ensures Valid()
      ensures machineOrder != [] ==> CountScheduled(jobs) == |jobs|
      ensures machineOrder != [] && old(CountPending(jobs)) == 0 ==> CountScheduled(jobs) == old(CountScheduled(jobs))
      ensures machineOrder == [] ==> CountScheduled(jobs) == old(CountScheduled(jobs))
      ensures machineOrder != [] ==> forall k :: 0 <= k < |scheduledJobs| ==>
        scheduledJobs[k] in jobs && Placed(scheduledJobs[k], machineOrder, currentTime)
      ensures machineOrder != [] ==> forall i :: 0 <= i < |jobs| && old(jobs[i].status) == Pending ==> jobs[i] in scheduledJobs
      ensures machineOrder == [] ==> scheduledJobs == []
      ensures forall i, k :: 0 <= i < k < |scheduledJobs| ==> scheduledJobs[i].priorityScore >= scheduledJobs[k].priorityScore
    {
      NoPendingJobs(jobs);
      DetachScheduled();
      ghost var pending := PendingJobs(jobs);
      ScheduleAfresh();
      forall i | 0 <= i < |jobs| && old(jobs[i].status) == Pending && machineOrder != []
        ensures jobs[i] in scheduledJobs
      {
        assert jobs[i] in pending;
        assert jobs[i] in multiset(pending);
      }
    }

    /**
     * The second half of rescheduling: clears the schedule and schedules
     * the pending jobs by fuzzy priority, the default rule.
     */
    method ScheduleAfresh()
      requires Valid() && FuzzyReady()
      modifies this`scheduledJobs, jobs, machines.Values
      ensures Valid()
      ensures machineOrder != [] ==> CountScheduled(jobs) == |jobs|
      ensures machineOrder != [] ==> forall k :: 0 <= k < |scheduledJobs| ==>
        scheduledJobs[k] in jobs && Placed(scheduledJobs[k], machineOrder, currentTime)
      ensures machineOrder != [] ==> multiset(scheduledJobs) == multiset(old(PendingJobs(jobs)))
      ensures machineOrder == [] ==> scheduledJobs == []
      ensures machineOrder == [] ==> CountScheduled(jobs) == old(CountScheduled(jobs))
      ensures forall i, k :: 0 <= i < k < |scheduledJobs| ==> scheduledJobs[i].priorityScore >= scheduledJobs[k].priorityScore
    {
      scheduledJobs := [];
      ghost var pending := PendingJobs(jobs);
      assert pending == old(PendingJobs(jobs));
      assert ParseAlgorithm("fuzzy_priority") == Some(FuzzyPriority);
      var r := ScheduleJobs("fuzzy_priority");
      NoPendingJobs(jobs);
      if machineOrder == [] {
        SameStatusesSameCount(jobs);
      }
    }

    /** The jobs by descending priority, ties in list order. */
    static method SortByPriority(jobs: seq<Job>) returns (sorted: seq<Job>)
      ensures multiset(sorted) == multiset(jobs)
      ensures forall k :: 0 <= k < |sorted| ==> sorted[k] in jobs
      ensures forall i, k :: 0 <= i < k < |sorted| ==> sorted[i].priorityScore >= sorted[k].priorityScore
    {
      sorted := SortedJobs(jobs, PriorityKeys(jobs));
      DescendingPriorities(jobs);
      SortedJobsFromInput(jobs, PriorityKeys(jobs));
    }

    /** The jobs by arrival time, ties in list order. */
    static method SortByArrival(jobs: seq<Job>) returns (sorted: seq<Job>)
      ensures multiset(sorted) == multiset(jobs)
      ensures forall k :: 0 <= k < |sorted| ==> sorted[k] in jobs
      ensures forall i, k :: 0 <= i < k < |sorted| ==> sorted[i].arrivalTime <= sorted[k].arrivalTime
    {
      sorted := SortedJobs(jobs, ArrivalKeys(jobs));
      AscendingArrivals(jobs);
      SortedJobsFromInput(jobs, ArrivalKeys(jobs));
    }

    /** The jobs by due date, ties in list order. */
    static method SortByDueDate(jobs: seq<Job>) returns (sorted: seq<Job>)
      ensures multiset(sorted) == multiset(jobs)
      ensures forall k :: 0 <= k < |sorted| ==> sorted[k] in jobs
      ensures forall i, k :: 0 <= i < k < |sorted| ==> sorted[i].dueDate <= sorted[k].dueDate
    {
      sorted := SortedJobs(jobs, DueKeys(jobs));
      AscendingDueDates(jobs);
      SortedJobsFromInput(jobs, DueKeys(jobs));
    }
  }
}
