# Fuzzy scheduling of manufacturing jobs, in Dafny

This project models the core of a manufacturing scheduler that orders
jobs on machines by a priority computed with a Mamdani fuzzy inference
system, and compares that order with first come first served (FCFS) and
earliest due date (EDD). Its contracts and lemmas prove properties of the
model. The model covers:

- **The fuzzy engine** (`membership.dfy`, `fuzzy_rules.dfy`, `fuzzy_engine.dfy`, `fuzzy_system.dfy`).
  - Triangular and trapezoidal membership functions, with the source's branch order.
  - Linguistic variables and rule evaluation (AND as a minimum).
  - Max aggregation of rule strengths per output set.
  - Centroid defuzzification over 100 evenly spaced samples, with the midpoint as fallback.
  - The pure parts are datatypes and functions. `FuzzyVariable` and `FuzzyInferenceSystem` are classes whose methods are proved equal to those functions.
- **The scheduling inference system** (`scheduling_system.dfy`).
  - The factory that registers the processing-time, urgency and machine-load inputs, the priority output and the thirteen rules.
  - The three inference scenarios of the unit tests, proved for the inputs of each unit-test scenario.
- **Jobs and machines** (`job.dfy`).
  - Job validation and urgency, slack and overdue.
  - The `Machine` class: adding and removing jobs with their processing-time bookkeeping, load and utilization, and the greedy gap search for a free slot.
- **The scheduler** (`scheduler.dfy`, with the stable sort in `sorting.dfy`).
  - The `FuzzyScheduler` class: registering machines and jobs, the fuzzy, FCFS and EDD scheduling rules, and assigning a job to a machine.
  - The schedule summary, lookup by identifier, and rescheduling.
- **Two pure utilities** (`utils.dfy`): the performance metrics of a job list, and the "Xh Ym" rendering of a duration.

Times are real numbers of hours from a fixed epoch. A `datetime` of the
source becomes such a number, and a difference divided by 3600 seconds
becomes a plain subtraction. The clock reading the scheduler takes at
construction is a parameter of its constructor. Python's truthiness tests
on an optional `datetime` become `Option` tests.

Where the prose description of the system and the code differ, the model follows the code:

- A machine always offers a slot.
- Rescheduling detaches a job only when its assigned machine is a non-empty registered identifier.
- Rescheduling removes that machine's first job with the same identifier.

## Model

| member | source | states |
|---|---|---|
| Base.Trunc | src/utils.py:242-243 | Python's `int()` of a float truncates toward zero: the result is the integer part from below for non-negative values and from above for negative ones |
| Membership.Degree | src/fuzzy_logic.py:60-115 | the degree of any value in a triangle or trapezoid lies in [0, 1] whatever the breakpoints, and no branch divides by zero |
| Membership.TriangularMatchesClosedForm | src/fuzzy_logic.py:100-115 | for a proper triangle a < b < c the branching definition equals max(0, min((x-a)/(b-a), (c-x)/(c-b))) at every x |
| Membership.TrapezoidalMatchesClosedForm | src/fuzzy_logic.py:60-77 | for a proper trapezoid the branching definition equals max(0, min((x-a)/(b-a), 1, (d-x)/(d-c))) at every x |
| Membership.TriangleIsPointPlateauTrapezoid | src/fuzzy_logic.py:60-115 | a triangle (a, b, c) has the same degree everywhere as the trapezoid (a, b, b, c), for any breakpoints |
| Membership.RisingRampMonotone | src/fuzzy_logic.py:70-73 | on the rising ramp between a and b the degree never decreases |
| Membership.TriangleFallingMonotone | src/fuzzy_logic.py:110-115 | on the falling side between b and c a triangle's degree never increases |
| Membership.TriangleBreakpoints | src/fuzzy_logic.py:100-115 | a proper triangle is 1 at its peak and 0 at and beyond its base points |
| Membership.TrapezoidPlateau | src/fuzzy_logic.py:70-75 | a trapezoid is 1 on its plateau strictly inside (a, d) |
| Membership.LeftDegenerateTriangle | src/fuzzy_logic.py:110-115 | with a = b the degree at a is 0, because the outside test comes first, and just after it the degree is (c-x)/(c-a) |
| Membership.UnitTestValues | tests/test_fuzzy_logic.py:15-45 | the peak, slope, boundary and plateau values the unit tests expect of Triangular(0, 5, 10) and Trapezoidal(0, 3, 7, 10) |
| FuzzyRules.Evaluate | src/fuzzy_logic.py:176-193 | the loop returns the rule's strength: 0 at the first antecedent missing from the inputs, otherwise the minimum of the selected degrees, and 0 for no antecedents |
| FuzzyRules.StrengthIsMinimum | src/fuzzy_logic.py:186-193 | when every antecedent is present the strength is at most each selected degree and equals one of them |
| FuzzyRules.StrengthInRange | src/fuzzy_logic.py:176-193 | with degrees in [0, 1] the strength is in [0, 1] |
| FuzzyRules.MissingAntecedentDoesNotFire | src/fuzzy_logic.py:187-191 | an antecedent whose variable or set is missing from the inputs makes the strength 0 |
| FuzzyRules.ZeroAntecedentBlocks | src/fuzzy_logic.py:186-193 | with degrees in [0, 1], one antecedent of degree 0 makes the strength 0 |
| FuzzyRules.UnitTestStrengths | tests/test_fuzzy_logic.py:76-103 | min(0.8, 0.6) = 0.6 for the two-antecedent rule, and 0 when "humidity" is missing |
| FuzzyEngine.Memberships | src/fuzzy_logic.py:144-157 | fuzzification maps exactly the set names of the variable, each to a degree in [0, 1] |
| FuzzyEngine.MembershipOfLastWithName | src/fuzzy_logic.py:154-157 | when several sets share a name, the entry is the degree of the last of them |
| FuzzyEngine.FuzzifyInputs | src/fuzzy_logic.py:245-249 | fuzzified inputs are keyed by exactly the inputs whose variable is registered, each mapped to that variable's memberships; other inputs are dropped |
| FuzzyEngine.FuzzifyInputsInRange | src/fuzzy_logic.py:245-249 | every fuzzified degree is in [0, 1] |
| FuzzyEngine.ZeroAggregation | src/fuzzy_logic.py:252-254 | the starting aggregation has exactly the output variable's set names |
| FuzzyEngine.Aggregate | src/fuzzy_logic.py:256-263 | aggregation never adds or drops a set name |
| FuzzyEngine.AggregateIsMaximum | src/fuzzy_logic.py:256-263 | each set ends at least at its start value and at least at the strength of every firing rule concluding it, and equals one of these |
| FuzzyEngine.AggregateOfSilentSet | src/fuzzy_logic.py:256-263 | a set no firing rule concludes keeps its start value |
| FuzzyEngine.AggregateOfStrongestRule | src/fuzzy_logic.py:256-263 | a set ends at the strength of its strongest firing rule when that is not below its start value |
| FuzzyEngine.AggregateOfOneSet | src/fuzzy_logic.py:256-263 | when every firing rule concludes one set, only that set changes, to its strongest rule's strength |
| FuzzyEngine.AggregateOfNoFiring | src/fuzzy_logic.py:256-263 | when no rule fires, the aggregation is its start value |
| FuzzyEngine.AggregateInRange | src/fuzzy_logic.py:251-263 | from start values in [0, 1] and degrees in [0, 1], every aggregate is in [0, 1] |
| FuzzyEngine.ConsequentVariableIgnored | src/fuzzy_logic.py:259-263 | rules that differ only in their consequent's variable name aggregate identically |
| FuzzyEngine.Samples | src/fuzzy_logic.py:279-280 | the universe is sampled at exactly 100 points, the i-th being the i-th linspace point |
| FuzzyEngine.SampleInUniverse | src/fuzzy_logic.py:280 | every sample lies in [lo, hi], the first is lo and the last is hi |
| FuzzyEngine.ClippedMax | src/fuzzy_logic.py:284-289 | the aggregated membership at a point is in [0, 1] |
| FuzzyEngine.SampledMembership | src/fuzzy_logic.py:282-289 | one aggregated membership per sample point, taken at that point |
| FuzzyEngine.ClippedMaxPositive | src/fuzzy_logic.py:284-289 | the aggregated membership at a point is positive exactly when some active set has a positive degree there |
| FuzzyEngine.ClippedMaxSilent | src/fuzzy_logic.py:284-289 | with no positive activation the aggregated membership is 0 everywhere |
| FuzzyEngine.SumOfNonNegative | src/fuzzy_logic.py:293-295 | the denominator is non-negative, and 0 exactly when every sampled membership is 0 |
| FuzzyEngine.WeightedMeanBetween | src/fuzzy_logic.py:292-298 | a weighted mean of points lies between any bounds of the points that carry weight |
| FuzzyEngine.CentroidBetween | src/fuzzy_logic.py:268-298 | when some sample carries weight, the centroid lies between any bounds of the samples that carry weight |
| FuzzyEngine.CentroidFallback | src/fuzzy_logic.py:291-296 | the denominator is 0 exactly when the aggregated membership is 0 at every sample, and then the result is the universe's midpoint |
| FuzzyEngine.CentroidInUniverse | src/fuzzy_logic.py:268-298 | with lo ≤ hi the defuzzified value lies in the output universe |
| FuzzyEngine.InferInUniverse | src/fuzzy_logic.py:235-298 | whatever the inputs, inference returns a value of the output universe |
| FuzzySystem.FuzzyVariable.constructor | src/fuzzy_logic.py:123-133 | a new variable has its name and universe and no fuzzy sets |
| FuzzySystem.FuzzyVariable.AddMembershipFunction | src/fuzzy_logic.py:135-142 | appends the set; nothing else changes |
| FuzzySystem.FuzzyVariable.Fuzzify | src/fuzzy_logic.py:144-157 | the loop yields the memberships of the value in every set, keyed by set name |
| FuzzySystem.FuzzyInferenceSystem.constructor | src/fuzzy_logic.py:201-205 | no variables, no rules, no output variable |
| FuzzySystem.FuzzyInferenceSystem.AddVariable | src/fuzzy_logic.py:207-214 | registers the variable under its name, replacing one of the same name; rules and output unchanged |
| FuzzySystem.FuzzyInferenceSystem.SetOutputVariable | src/fuzzy_logic.py:216-224 | makes the variable the output and also registers it by name |
| FuzzySystem.FuzzyInferenceSystem.AddRule | src/fuzzy_logic.py:226-233 | appends the rule; variables and output unchanged |
| FuzzySystem.FuzzyInferenceSystem.Infer | src/fuzzy_logic.py:235-266 | the result is the inference of the system's configuration on the inputs, and it lies in the output universe when that is a proper interval |
| FuzzySystem.FuzzyInferenceSystem.AggregateInputs | src/fuzzy_logic.py:245-263 | steps 1 and 2: the rules aggregated in order over the fuzzified known inputs, from zeros |
| FuzzySystem.FuzzyInferenceSystem.FuzzifyKnownInputs | src/fuzzy_logic.py:245-249 | the loop fuzzifies exactly the inputs whose variable is registered |
| FuzzySystem.FuzzyInferenceSystem.ZeroOutputSets | src/fuzzy_logic.py:252-254 | the loop maps every output set name to 0 |
| FuzzySystem.FuzzyInferenceSystem.AggregateRules | src/fuzzy_logic.py:256-263 | the loop computes the max aggregation of the rules in order |
| FuzzySystem.FuzzyInferenceSystem.DefuzzifyCentroid | src/fuzzy_logic.py:268-298 | the loops compute the centroid of the aggregated membership, or the midpoint when it is 0 everywhere |
| SchedulingSystem.NewVariable | src/fuzzy_logic.py:320-323 | builds a fresh variable object holding exactly the given universe and fuzzy sets in order |
| SchedulingSystem.RegisterVariable | src/fuzzy_logic.py:320-338 | builds an input variable and registers it under its name; rules and output unchanged |
| SchedulingSystem.AddRules | src/fuzzy_logic.py:384-386 | appends the rules in order; the variables stay as they are |
| SchedulingSystem.CreateSchedulingFuzzySystem | src/fuzzy_logic.py:301-388 | the new system has exactly the variables processing_time, urgency, machine_load and priority, priority as output with five sets, and the thirteen rules in order |
| SchedulingSystem.HighPriorityStrengths | src/fuzzy_logic.py:351-382 | for the high-priority scenario only the first rule fires, at min(0.8, 0.75, 0.6) = 0.6 |
| SchedulingSystem.VeryHighCentroid | src/fuzzy_logic.py:268-298 | with only "very_high" active, the centroid is in [75, 100] |
| SchedulingSystem.HighPriorityScenario | tests/test_fuzzy_logic.py:120-131 | the high-priority inputs infer a priority of at least 75 (the test asks more than 70) |
| SchedulingSystem.LowPriorityStrengths | src/fuzzy_logic.py:351-382 | for the low-priority scenario only the last two rules fire, at 0.5 and 0.6 |
| SchedulingSystem.VeryLowCentroid | src/fuzzy_logic.py:268-298 | with only "very_low" active, the centroid is in [0, 25] |
| SchedulingSystem.LowPriorityScenario | tests/test_fuzzy_logic.py:133-144 | the low-priority inputs infer a priority of at most 25 (the test asks less than 40) |
| SchedulingSystem.MediumPriorityStrengths | src/fuzzy_logic.py:351-382 | for the medium scenario no rule fires |
| SchedulingSystem.SilentCentroid | src/fuzzy_logic.py:295-296 | with no active priority set the centroid is the midpoint 50 |
| SchedulingSystem.MediumPriorityScenario | tests/test_fuzzy_logic.py:146-158 | the medium inputs infer exactly 50 (the test asks a value between 30 and 70) |
| Jobs.ValidationError | src/job.py:29-34 | a job is valid exactly when its processing time is positive and its due date is not before its arrival; processing time is checked first |
| Jobs.UrgencyLevel | src/job.py:51-63 | urgency is one of the levels between 1 and 10 |
| Jobs.UrgencyNonIncreasing | src/job.py:51-63 | less time remaining never gives less urgency |
| Jobs.Job.CalculateUrgency | src/job.py:36-63 | the urgency is between 1 and 10, is 10 exactly from the due date on, and at least 9 exactly when the job can no longer finish before its due date |
| Jobs.UrgencyThresholds | src/job.py:51-63 | each urgency level is reached exactly at its threshold of remaining time: 10 when overdue, 9 within one processing time, 7 within two, 5 within five, 3 within ten |
| Jobs.Job.constructor | src/job.py:11-34 | a validated job holds the given data with the dataclass defaults: pending, unassigned, untimed, priority 0 |
| Jobs.NewJob | src/job.py:29-34 | construction fails exactly when validation fails, with that validation's message, and otherwise yields a valid pending job holding the data |
| Jobs.Job.IsOverdue | src/job.py:65-77 | a completed job is never overdue, and an overdue job has negative slack and urgency 10 |
| Jobs.Job.SlackTime | src/job.py:79-93 | the slack is less than the time to the due date, negative exactly when processing would overrun the due date, and no slack means urgency 9 or more |
| Jobs.NegativeSlackIsUrgent | src/job.py:79-93 | slack is negative exactly when the job cannot finish by its due date, and no slack means urgency 9 or more |
| Jobs.OverdueJobHasNegativeSlack | src/job.py:65-77 | an overdue job has negative slack and urgency 10 |
| Jobs.FirstFitNotEarlier | src/job.py:199-206 | the gap search never returns a time before its starting point |
| Jobs.FirstFitNoOverlap | src/job.py:199-206 | on bookings sorted by start, the slot found overlaps no booking that has a completion time |
| Jobs.Machine.constructor | src/job.py:112-127 | a new machine has no jobs, no processing time and no utilization |
| Jobs.Machine.UpdateUtilization | src/job.py:174-178 | utilization is the total processing time over 40 hours, capped at 1 |
| Jobs.Machine.AddJob | src/job.py:129-140 | appends the job, adds its processing time, marks it scheduled on this machine and keeps the utilization in step |
| Jobs.Machine.RemoveJob | src/job.py:142-160 | removes the first job with the identifier, resets it to pending and unassigned and subtracts its time; without such a job nothing changes and None is returned |
| Jobs.Machine.GetCurrentLoad | src/job.py:162-172 | the load is at most 100, and not negative when the total time is not |
| Jobs.Machine.GetAvailableSlot | src/job.py:180-206 | the slot is always found, is no earlier than the earliest start, and overlaps none of the machine's timed jobs |
| Jobs.SlotAvoidsBookings | src/job.py:195-206 | the gap search over the sorted bookings avoids every timed job on the machine |
| Jobs.FindJob | src/job.py:152-153 | the index found is that of the first job with the identifier, and none means no job has it |
| Jobs.RemovePreservesTotal | src/job.py:154-157 | dropping a job takes exactly its processing time off the total |
| Jobs.TotalTimeNonNegative | src/job.py:162-178 | processing times are positive, so load is in [0, 100] and utilization in [0, 1] |
| Jobs.AddThenRemove | src/job.py:129-160 | adding a job and removing its identifier restores the list and the total, when no earlier job has that identifier |
| Sorting.SortByKey | src/job.py:196-197 | Python's stable `sorted` by key: the result is ordered by key and is a permutation of the input |
| Sorting.SortByKeyItems | src/scheduler.py:124 | sorting permutes the items carried with the keys |
| Scheduler.ParseAlgorithm | src/scheduler.py:91-98 | each of the three names selects its rule, and only that name does |
| Scheduler.TargetMachine | src/scheduler.py:181-212 | the required machine when registered, else the first registered one, and none exactly when no machine is registered |
| Scheduler.PendingJobs | src/scheduler.py:89 | the pending jobs of the list, every one of them and nothing else |
| Scheduler.DescendingPriorities | src/scheduler.py:124 | in the fuzzy order priorities never increase |
| Scheduler.AscendingArrivals | src/scheduler.py:146 | in the FCFS order arrival times never decrease |
| Scheduler.AscendingDueDates | src/scheduler.py:168 | in the EDD order due dates never decrease |
| Scheduler.CountsPartition | src/scheduler.py:221-223 | scheduled and pending counts add up to the number of jobs |
| Scheduler.NoPendingJobs | src/scheduler.py:222-223 | no job is pending exactly when every job counts as scheduled |
| Scheduler.AveragePriorityBounds | src/scheduler.py:232 | when every priority of a non-empty list lies in [lo, hi], so does their mean |
| Scheduler.UtilizationsInRange | src/scheduler.py:234-237 | every machine that keeps its bookkeeping has a utilization in [0, 1] |
| Scheduler.LatestCompletion | src/scheduler.py:227-229 | the latest completion bounds every completion and is one of them; none exactly when no job has one |
| Scheduler.Makespan | src/scheduler.py:225-230 | hours from now to the latest completion, 0 when no job has a completion |
| Scheduler.AveragePriority | src/scheduler.py:232 | 0 without jobs, and in [0, 100] when every priority is |
| Scheduler.Utilizations | src/scheduler.py:234-237 | one utilization per registered machine, each in [0, 1] for a valid machine |
| Scheduler.FuzzyScheduler.constructor | src/scheduler.py:17-23 | a scheduler over the scheduling inference system, with no machines, jobs or schedule |
| Scheduler.FuzzyScheduler.AddMachine | src/scheduler.py:25-32 | registers the machine under its identifier, replacing a machine of that identifier in its place |
| Scheduler.FuzzyScheduler.AddJob | src/scheduler.py:34-41 | appends the job |
| Scheduler.FuzzyScheduler.AddJobs | src/scheduler.py:43-50 | appends the jobs in order |
| Scheduler.FuzzyScheduler.CalculateJobPriority | src/scheduler.py:52-74 | inference on the job's urgency now, its processing time and the machine's load; the priority is in [0, 100] |
| Scheduler.FuzzyScheduler.AssignJobToMachine | src/scheduler.py:181-212 | succeeds exactly when a machine is registered, and then the job is scheduled on its target machine, starts no earlier than now or its arrival, and completes its processing time later; otherwise the job is unchanged |
| Scheduler.FuzzyScheduler.PlaceOn | src/scheduler.py:194-199 | books the job on the machine at a slot from the earliest start that overlaps none of its timed jobs |
| Scheduler.FuzzyScheduler.ComputeFuzzyPriorities | src/scheduler.py:110-121 | every job gets the priority inferred against its target machine's load, or 50 without a machine |
| Scheduler.FuzzyScheduler.SetFuzzyPriority | src/scheduler.py:111-121 | one job's priority, inferred against its target machine, or 50 without a machine |
| Scheduler.FuzzyScheduler.PlaceInOrder | src/scheduler.py:126-131 | with a machine every job is placed and returned in the given order; without one none is and nothing changes |
| Scheduler.FuzzyScheduler.ScheduleFuzzyPriority | src/scheduler.py:100-134 | priorities are inferred first, then the jobs are placed in non-increasing priority; all are placed when a machine exists, none otherwise |
| Scheduler.FuzzyScheduler.ScheduleFcfs | src/scheduler.py:136-156 | every job gets priority 50 and the jobs are placed in non-decreasing arrival order |
| Scheduler.FuzzyScheduler.ScheduleEdd | src/scheduler.py:158-179 | every job gets ten times its urgency and the jobs are placed in non-decreasing due-date order |
| Scheduler.FuzzyScheduler.Dispatch | src/scheduler.py:91-96 | runs the selected rule with the order and priorities it promises |
| Scheduler.FuzzyScheduler.ScheduleJobs | src/scheduler.py:76-98 | only pending jobs are scheduled; an unknown name fails and changes nothing; the placed jobs are appended to the schedule; with a machine no job is left pending; each rule's order and priorities hold |
| Scheduler.FuzzyScheduler.GetScheduleSummary | src/scheduler.py:214-247 | counts by status that add up, the makespan from now to the latest completion (0 without one), the mean priority (0 without jobs) and every machine's utilization in [0, 1] |
| Scheduler.FuzzyScheduler.GetJobById | src/scheduler.py:249-262 | the first job with the identifier, or none when no job has it |
| Scheduler.FuzzyScheduler.DetachScheduled | src/scheduler.py:268-272 | detaching keeps every machine valid, only ever removes jobs from machines, leaves every pending job pending, and changes no count without a machine |
| Scheduler.FuzzyScheduler.DetachJob | src/scheduler.py:270-272 | removing one job from its registered machine keeps the machines valid and leaves every pending job pending |
| Scheduler.FuzzyScheduler.ScheduleAfresh | src/scheduler.py:274-276 | clears the schedule and reschedules by fuzzy priority; with a machine the new schedule is a permutation of the jobs pending at entry and every job ends scheduled; without one the schedule is empty and the scheduled count unchanged |
| Scheduler.FuzzyScheduler.Reschedule | src/scheduler.py:264-276 | with a machine every job pending before is in the new schedule and every job ends scheduled, so the scheduled count is unchanged when none was pending before; without a machine the count is unchanged; the new schedule is placed, in non-increasing priority, and empty without a machine |
| Scheduler.FuzzyScheduler.SortByPriority | src/scheduler.py:124 | a permutation of the jobs with non-increasing priorities |
| Scheduler.FuzzyScheduler.SortByArrival | src/scheduler.py:146 | a permutation of the jobs with non-decreasing arrival times |
| Scheduler.FuzzyScheduler.SortByDueDate | src/scheduler.py:168 | a permutation of the jobs with non-decreasing due dates |
| Utils.Considered | src/utils.py:197 | exactly the jobs with both a start and a completion time |
| Utils.EarliestStart | src/utils.py:218 | the earliest start bounds every start and is one of them |
| Utils.LatestCompletion | src/utils.py:219 | the latest completion bounds every completion and is one of them |
| Utils.CalculatePerformanceMetrics | src/utils.py:187-229 | the total counts the list; without a timed job every other metric is 0; the on-time rate is in [0, 100] |
| Utils.AllOnTime | src/utils.py:215 | the on-time count is the number of considered jobs exactly when all are on time, and 0 exactly when none is |
| Utils.OnTimeRateExtremes | src/utils.py:215-216 | the rate is 100 exactly when every timed job completes by its due date, and 0 exactly when none does |
| Utils.MakespanCoversEveryJob | src/utils.py:218-220 | the makespan covers every timed job's span, so it is non-negative when no job completes before it starts |
| Utils.TurnaroundMeanBounds | src/utils.py:210-211 | the mean turnaround lies within any bounds of the turnarounds |
| Utils.WaitingMeanBounds | src/utils.py:212-213 | the mean waiting time lies within any bounds of the waiting times |
| Utils.AveragesWithinBounds | src/utils.py:210-226 | both averages are means: they lie within any bounds of the per-job values |
| Utils.WaitingWithinTurnaround | src/utils.py:210-226 | when no timed job completes before it starts, the average wait is at most the average turnaround |
| Utils.NatToString | src/utils.py:244 | the decimal digits of a number without a superfluous leading zero, one digit below 10 and at most two below 100 |
| Utils.NatToStringRoundTrip | src/utils.py:244 | reading the digits back gives the number |
| Utils.CanonicalDigitsUnique | src/utils.py:244 | two digit strings without a superfluous leading zero and with the same value are equal, so a number has exactly one such rendering |
| Utils.IntToString | src/utils.py:244 | a negative number is written as a minus sign before its digits |
| Utils.DurationParts | src/utils.py:242-243 | hours and minutes both truncate toward zero; the minutes are in [0, 59] for non-negative durations and together they give the truncated total minutes |
| Utils.FormatDuration | src/utils.py:232-244 | a non-negative duration is written as digits, "h ", at most two digits and "m", both numbers without a superfluous leading zero and reading back to the truncated total minutes, which fixes the string |
| Utils.TwoAndAHalfHours | src/utils.py:240 | two and a half hours are written "2h 30m" |

## Left out

- Input and output: the GUI, the database layer, the command-line entry point, and the CSV, JSON and report helpers of the utilities. None of them is part of the scheduling core.
- The wall clock: `datetime.now()` becomes the scheduler's `currentTime`, fixed at construction, and the `now` parameter of the job functions.
- Floating point and numpy: reals are exact. `np.linspace`, `np.sum` and the float division of the centroid are exact real operations, so rounding is not modelled.
- Machine's `current_job` field: nothing in the core reads or writes it. `capacity` is kept and never read, as in the source.
- The job fields' string statuses: they are the `Status` datatype. The `__str__` and `__repr__` renderings are not modelled.
- FuzzyMembershipFunction's abstract base class: it is the closed `MembershipFunction` datatype, with one evaluation function.
- Rule antecedents: the source keeps them in a dictionary, so a variable appears at most once. The model takes a sequence of pairs in dictionary order. Every rule of the scheduling system names each variable once.
- Scheduler.FuzzyScheduler.ScheduleFcfs: priorities are set for all jobs before any is placed, while the source interleaves the two per job. Placement never reads a priority, so the outcome is the same.
- Scheduler.FuzzyScheduler.ScheduleEdd: priorities are set before placement, as in ScheduleFcfs.
- Scheduler.FuzzyScheduler.ScheduleJobs: the append of the placed jobs to the schedule happens here once, not inside each rule. The resulting schedule is the same.
- Scheduler.FuzzyScheduler.AssignJobToMachine: the machine's new state is stated by PlaceOn, not in this contract. The source's loop over all machines is modelled as taking the first one, because a machine always offers a slot.
- Scheduler.FuzzyScheduler.SortByPriority: the contract does not state how ties are ordered. The function behind it is a stable sort, but tie order is not proved. The same holds for SortByArrival, SortByDueDate and Sorting.SortByKey.
- Scheduler.FuzzyScheduler.DetachScheduled: the contract states that machines stay valid, only lose jobs and that pending jobs stay pending. It does not state which jobs become pending: a machine drops its first job with the identifier, which need not be the list's job object. Which job each machine loses is stated per machine by Jobs.Machine.RemoveJob.
- Scheduler.FuzzyScheduler.DetachJob: weaker than the source in the same way as DetachScheduled.
- Scheduler.FuzzyScheduler.Reschedule: with a machine registered, the unchanged-count property is proved only when no job was pending before. Jobs pending before are scheduled too, so the count can grow. The contract states that every job pending before is in the new schedule, but not that every detached job is: which job objects the machines reset is not stated (see DetachScheduled). ScheduleAfresh states the full multiset of the new schedule against the jobs pending after detaching.
- Utils.CalculatePerformanceMetrics: the source returns integer zeros for an empty list. The model returns real zeros of equal value.
- Utils.FormatDuration: the digit-form contract covers non-negative durations only. For negative durations DurationParts states the truncated parts, both non-positive.
- Jobs.Machine.GetAvailableSlot: the no-overlap promise covers machine jobs that have both a start and a completion time, as the gap search reads them.
