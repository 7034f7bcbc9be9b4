/**
 * The two pure helpers of the utilities: the performance metrics of a job
 * list and the "Xh Ym" rendering of a duration. Times are real hours from
 * an epoch; a job takes part in the metrics only when both its start and
 * its completion time are set.
 */
module Utils {
  import opened Base
  import opened Jobs

  /** The metrics dictionary: counts, mean turnaround and waiting time in hours, on-time rate in percent, makespan in hours. */
  datatype PerformanceMetrics = PerformanceMetrics(
    totalJobs: nat, scheduledJobs: nat, averageCompletionTime: real, averageWaitingTime: real,
    onTimeDeliveryRate: real, makespan: real)

  /** The metrics of a list in which no job is timed. */
  function EmptyMetrics(totalJobs: nat): PerformanceMetrics
  {
    PerformanceMetrics(totalJobs, 0, 0.0, 0.0, 0.0, 0.0)
  }

  /** A job with both a start and a completion time. */
  predicate Timed(job: Job)
    reads job
  {
    job.startTime.Some? && job.completionTime.Some?
  }

  predicate AllTimed(jobs: seq<Job>)
    reads jobs
  {
    forall i :: 0 <= i < |jobs| ==> Timed(jobs[i])
  }

  /** The timed jobs of the list, in list order. */
  function Considered(jobs: seq<Job>): (c: seq<Job>)
    reads jobs
    ensures |c| <= |jobs|
    ensures AllTimed(c) && forall j :: j in c ==> j in jobs
    ensures forall j :: j in jobs && Timed(j) ==> j in c
  {
    if jobs == [] then []
    else
      assert forall j :: j in jobs ==> j == jobs[0] || j in jobs[1..];
      (if Timed(jobs[0]) then [jobs[0]] else []) + Considered(jobs[1..])
  }

  /** Completion minus arrival, summed over timed jobs. */
  function TurnaroundSum(c: seq<Job>): real
    requires AllTimed(c)
    reads c
  {
    if c == [] then 0.0 else (c[0].completionTime.value - c[0].arrivalTime) + TurnaroundSum(c[1..])
  }

  /** Start minus arrival, summed over timed jobs. */
  function WaitingSum(c: seq<Job>): real
    requires AllTimed(c)
    reads c
  {
    if c == [] then 0.0 else (c[0].startTime.value - c[0].arrivalTime) + WaitingSum(c[1..])
  }

  /** A timed job that completes no later than its due date. */
  predicate OnTime(job: Job)
    requires Timed(job)
    reads job
  {
    job.completionTime.value <= job.dueDate
  }

  /** The number of timed jobs that complete by their due date. */
  function OnTimeCount(c: seq<Job>): (n: nat)
    requires AllTimed(c)
    reads c
    ensures n <= |c|
  {
    if c == [] then 0 else (if OnTime(c[0]) then 1 else 0) + OnTimeCount(c[1..])
  }

  /** The smallest start time of a non-empty list of timed jobs. */
  function EarliestStart(c: seq<Job>): (e: real)
    requires c != [] && AllTimed(c)
    reads c
    ensures forall j :: j in c ==> e <= j.startTime.value
    ensures exists j :: j in c && e == j.startTime.value
  {
    if |c| == 1 then c[0].startTime.value
    else
      assert forall j :: j in c ==> j == c[0] || j in c[1..];
      Min(c[0].startTime.value, EarliestStart(c[1..]))
  }

  /** The largest completion time of a non-empty list of timed jobs. */
  function LatestCompletion(c: seq<Job>): (l: real)
    requires c != [] && AllTimed(c)
    reads c
    ensures forall j :: j in c ==> j.completionTime.value <= l
    ensures exists j :: j in c && l == j.completionTime.value
  {
    if |c| == 1 then c[0].completionTime.value
    else
      assert forall j :: j in c ==> j == c[0] || j in c[1..];
      Max(c[0].completionTime.value, LatestCompletion(c[1..]))
  }

  /**
   * The metrics of a job list. Without a timed job every metric is 0 and
   * only the total counts the list; otherwise the averages are means over
   * the timed jobs, the on-time rate is a percentage and the makespan runs
   * from the earliest start to the latest completion.
   */
  function CalculatePerformanceMetrics(jobs: seq<Job>): (m: PerformanceMetrics)
    reads jobs
    ensures m.totalJobs == |jobs| && m.scheduledJobs <= m.totalJobs
    ensures m.scheduledJobs == 0 <==> forall j :: j in jobs ==> !Timed(j)
    ensures m.scheduledJobs == 0 ==> m == EmptyMetrics(|jobs|)
    ensures 0.0 <= m.onTimeDeliveryRate <= 100.0
  {
    var c := Considered(jobs);
    if c == [] then EmptyMetrics(|jobs|)
    else
      var n := |c| as real;
      var onTime := OnTimeCount(c);
      QuotientBounds(onTime as real, n, 0.0, 1.0);
      PerformanceMetrics(|jobs|, |c|, TurnaroundSum(c) / n, WaitingSum(c) / n,
        (onTime as real / n) * 100.0, LatestCompletion(c) - EarliestStart(c))
  }

  /** Every timed job is on time exactly when all of them are counted as on time. */
  lemma {:induction false} AllOnTime(c: seq<Job>)
    requires AllTimed(c)
    ensures OnTimeCount(c) == |c| <==> forall j :: j in c ==> OnTime(j)
    ensures OnTimeCount(c) == 0 <==> forall j :: j in c ==> !OnTime(j)
  {
    if c != [] {
      assert forall j :: j in c ==> j == c[0] || j in c[1..];
      AllOnTime(c[1..]);
    }
  }

  /**
   * With at least one timed job, the on-time rate is 100 exactly when every
   * timed job completes by its due date, and 0 exactly when none does.
   */
  lemma OnTimeRateExtremes(jobs: seq<Job>)
    requires CalculatePerformanceMetrics(jobs).scheduledJobs > 0
    ensures CalculatePerformanceMetrics(jobs).onTimeDeliveryRate == 100.0 <==>
      forall j :: j in jobs && Timed(j) ==> j.completionTime.value <= j.dueDate
    ensures CalculatePerformanceMetrics(jobs).onTimeDeliveryRate == 0.0 <==>
      forall j :: j in jobs && Timed(j) ==> j.completionTime.value > j.dueDate
  {
    var c := Considered(jobs);
    var n := |c| as real;
    var k := OnTimeCount(c);
    AllOnTime(c);
    RateExtremes(k as real, n);
  }

  /** A share k/n of a positive n, as a percentage, is 100 exactly when k = n and 0 exactly when k = 0. */
  lemma RateExtremes(k: real, n: real)
    requires n > 0.0
    ensures (k / n) * 100.0 == 100.0 <==> k == n
    ensures (k / n) * 100.0 == 0.0 <==> k == 0.0
  {
    var q := k / n;
    assert q * n == k;
  }

  /**
   * The makespan covers the span of every timed job, so it is non-negative
   * when every timed job completes no earlier than it starts.
   */
  lemma MakespanCoversEveryJob(jobs: seq<Job>)
    ensures forall j :: j in jobs && Timed(j) ==>
      j.completionTime.value - j.startTime.value <= CalculatePerformanceMetrics(jobs).makespan
    ensures (forall j :: j in jobs && Timed(j) ==> j.startTime.value <= j.completionTime.value) ==>
      CalculatePerformanceMetrics(jobs).makespan >= 0.0
  {
    var c := Considered(jobs);
    if c != [] {
      var e := EarliestStart(c);
      var j :| j in c && e == j.startTime.value;
      assert j in jobs && Timed(j);
    }
  }

  /** Sums of turnarounds between two bounds lie between the bounds times the count. */
  lemma {:induction false} TurnaroundSumBounds(c: seq<Job>, lo: real, hi: real)
    requires AllTimed(c)
    requires forall i :: 0 <= i < |c| ==> lo <= c[i].completionTime.value - c[i].arrivalTime <= hi
    ensures lo * |c| as real <= TurnaroundSum(c) <= hi * |c| as real
  {
    if c != [] {
      var rest, m := c[1..], (|c| - 1) as real;
      assert forall i :: 0 <= i < |rest| ==> rest[i] == c[i + 1];
      TurnaroundSumBounds(rest, lo, hi);
      assert TurnaroundSum(c) == (c[0].completionTime.value - c[0].arrivalTime) + TurnaroundSum(rest);
      Distribute(lo, m, 1.0);
      Distribute(hi, m, 1.0);
      assert lo * |c| as real == lo * m + lo && hi * |c| as real == hi * m + hi;
    }
  }

  /** Sums of waiting times between two bounds lie between the bounds times the count. */
  lemma {:induction false} WaitingSumBounds(c: seq<Job>, lo: real, hi: real)
    requires AllTimed(c)
    requires forall i :: 0 <= i < |c| ==> lo <= c[i].startTime.value - c[i].arrivalTime <= hi
    ensures lo * |c| as real <= WaitingSum(c) <= hi * |c| as real
  {
    if c != [] {
      var rest, m := c[1..], (|c| - 1) as real;
      assert forall i :: 0 <= i < |rest| ==> rest[i] == c[i + 1];
      WaitingSumBounds(rest, lo, hi);
      assert WaitingSum(c) == (c[0].startTime.value - c[0].arrivalTime) + WaitingSum(rest);
      Distribute(lo, m, 1.0);
      Distribute(hi, m, 1.0);
      assert lo * |c| as real == lo * m + lo && hi * |c| as real == hi * m + hi;
    }
  }

  /**
   * The averages are means: when every timed job's turnaround (completion
   * minus arrival) and waiting time (start minus arrival) lie within
   * bounds, so do the averages.
   */
  lemma AveragesWithinBounds(jobs: seq<Job>, lo: real, hi: real)
    requires CalculatePerformanceMetrics(jobs).scheduledJobs > 0
    requires forall j :: j in jobs && Timed(j) ==>
      lo <= j.completionTime.value - j.arrivalTime <= hi && lo <= j.startTime.value - j.arrivalTime <= hi
    ensures lo <= CalculatePerformanceMetrics(jobs).averageCompletionTime <= hi
    ensures lo <= CalculatePerformanceMetrics(jobs).averageWaitingTime <= hi
  {
    var c := Considered(jobs);
    forall i | 0 <= i < |c|
      ensures lo <= c[i].completionTime.value - c[i].arrivalTime <= hi
      ensures lo <= c[i].startTime.value - c[i].arrivalTime <= hi
    {
      assert c[i] in c;
    }
    TurnaroundMeanBounds(c, lo, hi);
    WaitingMeanBounds(c, lo, hi);
  }

  /** The mean turnaround over a non-empty list of timed jobs lies within bounds of every job's turnaround. */
  lemma TurnaroundMeanBounds(c: seq<Job>, lo: real, hi: real)
    requires c != [] && AllTimed(c)
    requires forall i :: 0 <= i < |c| ==> lo <= c[i].completionTime.value - c[i].arrivalTime <= hi
    ensures lo <= TurnaroundSum(c) / |c| as real <= hi
  {
    TurnaroundSumBounds(c, lo, hi);
    QuotientBounds(TurnaroundSum(c), |c| as real, lo, hi);
  }

  /** The mean waiting time over a non-empty list of timed jobs lies within bounds of every job's waiting time. */
  lemma WaitingMeanBounds(c: seq<Job>, lo: real, hi: real)
    requires c != [] && AllTimed(c)
    requires forall i :: 0 <= i < |c| ==> lo <= c[i].startTime.value - c[i].arrivalTime <= hi
    ensures lo <= WaitingSum(c) / |c| as real <= hi
  {
    WaitingSumBounds(c, lo, hi);
    QuotientBounds(WaitingSum(c), |c| as real, lo, hi);
  }

  /** Waiting never exceeds turnaround for jobs that complete no earlier than they start. */
  lemma {:induction false} WaitingSumAtMostTurnaround(c: seq<Job>)
    requires AllTimed(c)
    requires forall i :: 0 <= i < |c| ==> c[i].startTime.value <= c[i].completionTime.value
    ensures WaitingSum(c) <= TurnaroundSum(c)
  {
    if c != [] {
      WaitingSumAtMostTurnaround(c[1..]);
    }
  }

  /** When no timed job completes before it starts, the average wait is at most the average turnaround. */
  lemma WaitingWithinTurnaround(jobs: seq<Job>)
    requires forall j :: j in jobs && Timed(j) ==> j.startTime.value <= j.completionTime.value
    ensures CalculatePerformanceMetrics(jobs).averageWaitingTime <= CalculatePerformanceMetrics(jobs).averageCompletionTime
  {
    var c := Considered(jobs);
    if c != [] {
      assert forall i :: 0 <= i < |c| ==> c[i] in c;
      WaitingSumAtMostTurnaround(c);
      QuotientOrder(WaitingSum(c), TurnaroundSum(c), |c| as real);
    }
  }

  // ---------------------------------------------------------------------
  // Durations
  // ---------------------------------------------------------------------

  /** A non-empty string of decimal digits. */
  predicate IsDigits(s: string)
  {
    s != [] && forall i :: 0 <= i < |s| ==> '0' <= s[i] <= '9'
  }

  /** The decimal digits of a natural number, most significant first, as Python's `str` writes them. */
  function NatToString(n: nat): (s: string)
    ensures IsDigits(s)
    ensures n < 10 ==> |s| == 1
    ensures n < 100 ==> |s| <= 2
    ensures n > 0 ==> s[0] != '0'
    ensures Canonical(s)
  {
    if n < 10 then [Digit(n)] else NatToString(n / 10) + [Digit(n % 10)]
  }

  function Digit(d: nat): (c: char)
    requires d < 10
    ensures '0' <= c <= '9'
  {
    ['0', '1', '2', '3', '4', '5', '6', '7', '8', '9'][d]
  }

  /** The value of a string of decimal digits. */
  function DigitsValue(s: string): nat
    requires forall i :: 0 <= i < |s| ==> '0' <= s[i] <= '9'
  {
    if s == [] then 0 else 10 * DigitsValue(s[..|s| - 1]) + (s[|s| - 1] as int - '0' as int)
  }

  /** Reading back the digits of a number gives the number. */
  lemma {:induction false} NatToStringRoundTrip(n: nat)
    ensures DigitsValue(NatToString(n)) == n
  {
    var s := NatToString(n);
    if n >= 10 {
      NatToStringRoundTrip(n / 10);
      assert s[..|s| - 1] == NatToString(n / 10);
    }
  }

  /** A string of digits that does not start with 0 has a positive value. */
  lemma {:induction false} LeadingDigitPositive(s: string)
    requires IsDigits(s) && s[0] != '0'
    ensures DigitsValue(s) > 0
  {
    if |s| > 1 {
      LeadingDigitPositive(s[..|s| - 1]);
    }
  }

  /** No superfluous leading zero: a single digit, or a first digit other than 0. */
  predicate Canonical(s: string)
  {
    IsDigits(s) && (|s| > 1 ==> s[0] != '0')
  }

  /**
   * Two strings of digits without a superfluous leading zero that have the
   * same value are the same string: the canonical rendering of a number is
   * unique.
   */
  lemma {:induction false} CanonicalDigitsUnique(a: string, b: string)
    requires Canonical(a) && Canonical(b)
    requires DigitsValue(a) == DigitsValue(b)
    ensures a == b
  {
    var pa, pb := a[..|a| - 1], b[..|b| - 1];
    var da, db := a[|a| - 1] as int - '0' as int, b[|b| - 1] as int - '0' as int;
    assert DigitsValue(a) == 10 * DigitsValue(pa) + da;
    assert DigitsValue(b) == 10 * DigitsValue(pb) + db;
    if |a| > 1 {
      assert pa[0] == a[0];
      LeadingDigitPositive(pa);
    }
    if |b| > 1 {
      assert pb[0] == b[0];
      LeadingDigitPositive(pb);
    }
    LastDigitUnique(DigitsValue(pa), da, DigitsValue(pb), db);
    if |a| > 1 {
      CanonicalDigitsUnique(pa, pb);
    }
    SplitLast(a);
    SplitLast(b);
  }

  /** The quotient and remainder of a division by 10 are unique. */
  lemma LastDigitUnique(x: int, dx: int, y: int, dy: int)
    requires 0 <= dx < 10 && 0 <= dy < 10
    requires 10 * x + dx == 10 * y + dy
    ensures x == y && dx == dy
  {
  }

  /** A non-empty string is its prefix followed by its last character. */
  lemma SplitLast(s: string)
    requires s != []
    ensures s == s[..|s| - 1] + [s[|s| - 1]]
  {
  }

  /** Python's `str` of an integer: a minus sign before the digits of a negative number. */
  function IntToString(i: int): (s: string)
    ensures i >= 0 ==> s == NatToString(i)
    ensures i < 0 ==> s == "-" + NatToString(-i)
  {
    if i < 0 then "-" + NatToString(-i) else NatToString(i)
  }

  /** The whole hours and the remaining whole minutes of a duration, both truncated toward zero. */
  function DurationParts(hours: real): (parts: (int, int))
    ensures hours >= 0.0 ==> parts.0 >= 0 && 0 <= parts.1 <= 59
    ensures hours < 0.0 ==> parts.0 <= 0 && -59 <= parts.1 <= 0
    ensures parts.0 * 60 + parts.1 == Trunc(hours * 60.0)
  {
    var h := Trunc(hours);
    var m := Trunc((hours - h as real) * 60.0);
    TotalMinutes(hours, h, m);
    (h, m)
  }

  /** Truncating the hours and then the minutes truncates the total minutes. */
  lemma TotalMinutes(hours: real, h: int, m: int)
    requires h == Trunc(hours) && m == Trunc((hours - h as real) * 60.0)
    ensures hours >= 0.0 ==> 0 <= m <= 59
    ensures hours < 0.0 ==> -59 <= m <= 0
    ensures h * 60 + m == Trunc(hours * 60.0)
  {
    var r := (hours - h as real) * 60.0;
    assert hours * 60.0 == (h * 60) as real + r;
    if hours >= 0.0 {
      assert 0.0 <= r < 60.0;
      assert (h * 60 + m) as real <= hours * 60.0 < (h * 60 + m) as real + 1.0;
    } else {
      assert -60.0 < r <= 0.0;
      assert (h * 60 + m) as real - 1.0 < hours * 60.0 <= (h * 60 + m) as real;
    }
  }

  /** A duration in hours as "Xh Ym". */
  function FormatDuration(hours: real): (s: string)
    ensures hours >= 0.0 ==>
      exists hs, ms :: IsDigits(hs) && IsDigits(ms) && s == hs + "h " + ms + "m" &&
        Canonical(hs) && Canonical(ms) &&
        DigitsValue(hs) * 60 + DigitsValue(ms) == Trunc(hours * 60.0) && |ms| <= 2 && DigitsValue(ms) <= 59
  {
    var parts := DurationParts(hours);
    var s := IntToString(parts.0) + "h " + IntToString(parts.1) + "m";
    if hours >= 0.0 then
      NatToStringRoundTrip(parts.0);
      NatToStringRoundTrip(parts.1);
      assert s == NatToString(parts.0) + "h " + NatToString(parts.1) + "m";
      s
    else s
  }

  /** The rendering of two and a half hours. */
  lemma TwoAndAHalfHours()
    ensures FormatDuration(2.5) == "2h 30m"
  {
    assert 2.5.Floor == 2 && Trunc(2.5) == 2;
    assert (2.5 - 2.0) * 60.0 == 30.0 && 30.0.Floor == 30;
    assert DurationParts(2.5) == (2, 30);
    assert NatToString(3) == "3" && NatToString(30) == "30";
    assert IntToString(2) == "2" && IntToString(30) == "30";
    assert "2" + "h " + "30" + "m" == "2h 30m";
  }
}
