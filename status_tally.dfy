/** How many jobs have each status: the quantity the dashboard counts. */
module StatusTally {
  import opened Types

  /** The number of jobs in `jobs` whose status is `s`. */
  function CountStatus(jobs: seq<Job>, s: JobStatus): (n: nat)
    ensures n <= |jobs|
  {
    if jobs == [] then 0
    else CountStatus(jobs[..|jobs| - 1], s) + (if jobs[|jobs| - 1].status == s then 1 else 0)
  }

  /** Counting a list with one more job in front. */
  lemma {:induction false} CountStatusCons(j: Job, jobs: seq<Job>, s: JobStatus)
    ensures CountStatus([j] + jobs, s) == (if j.status == s then 1 else 0) + CountStatus(jobs, s)
    decreases |jobs|
  {
    if jobs != [] {
      var init := jobs[..|jobs| - 1];
      assert ([j] + jobs)[..|jobs|] == [j] + init;
      CountStatusCons(j, init, s);
    }
  }

  predicate HasStatus(jobs: seq<Job>, s: JobStatus) {
    exists i :: 0 <= i < |jobs| && jobs[i].status == s
  }

  /** Appending one job adds one to its own status's count only. */
  lemma CountStatusSnoc(jobs: seq<Job>, j: Job, s: JobStatus)
    ensures CountStatus(jobs + [j], s) == CountStatus(jobs, s) + (if j.status == s then 1 else 0)
  {
    assert (jobs + [j])[..|jobs|] == jobs;
  }

  /** A status is counted at least once exactly when some job has it. */
  lemma {:induction false} CountStatusPositive(jobs: seq<Job>, s: JobStatus)
    ensures CountStatus(jobs, s) > 0 <==> HasStatus(jobs, s)
  {
    if jobs != [] {
      var init := jobs[..|jobs| - 1];
      CountStatusPositive(init, s);
      if HasStatus(init, s) {
        var i :| 0 <= i < |init| && init[i].status == s;
        assert jobs[i].status == s;
      }
      if HasStatus(jobs, s) && jobs[|jobs| - 1].status != s {
        var i :| 0 <= i < |jobs| && jobs[i].status == s;
        assert init[i].status == s;
      }
    }
  }

  /** How often `s` occurs in a list of statuses. */
  function Occurrences(ss: seq<JobStatus>, s: JobStatus): nat {
    if ss == [] then 0 else (if ss[0] == s then 1 else 0) + Occurrences(ss[1..], s)
  }

  predicate NoDuplicates(ss: seq<JobStatus>) {
    forall i, j :: 0 <= i < j < |ss| ==> ss[i] != ss[j]
  }

  /** A status that occurs once in a duplicate-free list has one occurrence. */
  lemma {:induction false} OccurrencesOfMember(ss: seq<JobStatus>, s: JobStatus)
    requires NoDuplicates(ss)
    ensures Occurrences(ss, s) == if s in ss then 1 else 0
  {
    if ss != [] {
      OccurrencesOfMember(ss[1..], s);
      if ss[0] == s {
        assert s !in ss[1..] by {
          forall k | 0 <= k < |ss| - 1 ensures ss[1..][k] != s { assert ss[k + 1] != ss[0]; }
        }
      }
    }
  }

  /** The total of the counts of the statuses in `ss`. */
  function SumCounts(jobs: seq<Job>, ss: seq<JobStatus>): nat {
    if ss == [] then 0 else CountStatus(jobs, ss[0]) + SumCounts(jobs, ss[1..])
  }

  lemma {:induction false} SumCountsSnoc(jobs: seq<Job>, j: Job, ss: seq<JobStatus>)
    ensures SumCounts(jobs + [j], ss) == SumCounts(jobs, ss) + Occurrences(ss, j.status)
  {
    if ss != [] {
      CountStatusSnoc(jobs, j, ss[0]);
      SumCountsSnoc(jobs, j, ss[1..]);
    }
  }

  /** Summing the counts over a duplicate-free list that holds every status
      that occurs gives the number of jobs. */
  lemma {:induction false} SumCountsIsLength(jobs: seq<Job>, ss: seq<JobStatus>)
    requires NoDuplicates(ss)
    requires forall i :: 0 <= i < |jobs| ==> jobs[i].status in ss
    ensures SumCounts(jobs, ss) == |jobs|
  {
    if jobs == [] {
      SumCountsOfEmpty(ss);
    } else {
      var init, last := jobs[..|jobs| - 1], jobs[|jobs| - 1];
      assert init + [last] == jobs;
      SumCountsIsLength(init, ss);
      SumCountsSnoc(init, last, ss);
      OccurrencesOfMember(ss, last.status);
    }
  }

  lemma {:induction false} SumCountsOfEmpty(ss: seq<JobStatus>)
    ensures SumCounts([], ss) == 0
  {
    if ss != [] { SumCountsOfEmpty(ss[1..]); }
  }

  /** The five per-status counts add up to the number of jobs. */
  lemma StatusCountsSumToTotal(jobs: seq<Job>)
    ensures CountStatus(jobs, Interested) + CountStatus(jobs, Applied) +
            CountStatus(jobs, Interview) + CountStatus(jobs, Rejected) +
            CountStatus(jobs, Offer) == |jobs|
  {
    forall i | 0 <= i < |jobs| ensures jobs[i].status in AllStatuses {
      match jobs[i].status
      case Interested => case Applied => case Interview => case Rejected => case Offer =>
    }
    SumCountsIsLength(jobs, AllStatuses);
  }
}
