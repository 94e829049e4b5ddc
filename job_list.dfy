/**
 * The job list's filter-and-sort pipeline: keep the jobs that pass the status
 * and search conditions, then order a copy by the chosen field and direction.
 */
module JobList {
  import opened Wrappers
  import opened Types
  import opened Text
  import opened Collation
  import opened Seqs

  /** The status condition: no status chosen, or the job has it. */
  predicate PassesStatus(job: Job, filter: JobFilter) {
    filter.status.None? || job.status == filter.status.value
  }

  /** A search term is in force when it is set and non-empty. */
  predicate SearchActive(filter: JobFilter) {
    filter.search.Some? && filter.search.value != ""
  }

  /** The search condition: no search in force, or the lower-cased term is
      part of the lower-cased company name or job title. */
  predicate PassesSearch(job: Job, filter: JobFilter) {
    !SearchActive(filter) ||
    Includes(Lower(job.companyName), Lower(filter.search.value)) ||
    Includes(Lower(job.jobTitle), Lower(filter.search.value))
  }

  predicate Matches(job: Job, filter: JobFilter) {
    PassesStatus(job, filter) && PassesSearch(job, filter)
  }

  /** `jobs.filter(...)`: every matching job as often as it occurs, every other
      job dropped, the kept ones in their original order. */
  function FilteredJobs(jobs: seq<Job>, filter: JobFilter): (r: seq<Job>)
    ensures forall j :: multiset(r)[j] == if Matches(j, filter) then multiset(jobs)[j] else 0
    ensures Subsequence(r, jobs)
  {
    if jobs == [] then []
    else
      var rest := FilteredJobs(jobs[1..], filter);
      assert jobs == [jobs[0]] + jobs[1..];
      if Matches(jobs[0], filter) then
        SubsequenceKeep(rest, jobs[1..], jobs[0]);
        [jobs[0]] + rest
      else
        SubsequenceSkip(rest, jobs[1..], jobs[0]);
        rest
  }

  /** `filter.sortBy || 'dateApplied'`. */
  function EffectiveField(filter: JobFilter): SortField {
    filter.sortBy.GetOr(DateApplied)
  }

  /** `filter.sortDirection || 'desc'`. */
  function EffectiveDirection(filter: JobFilter): SortDirection {
    filter.sortDirection.GetOr(Desc)
  }

  /** The ascending comparison on one field: date differences for the two
      timestamps, the locale comparison for company names. */
  function CompareAscending(a: Job, b: Job, field: SortField): int {
    match field
    case DateApplied => a.dateApplied - b.dateApplied
    case CompanyName => LocaleCompare(a.companyName, b.companyName)
    case LastUpdated => a.lastUpdated - b.lastUpdated
  }

  /** The comparator handed to `sort`: negative when `a` goes first. */
  function CompareJobs(a: Job, b: Job, field: SortField, dir: SortDirection): int {
    if dir == Asc then CompareAscending(a, b, field) else CompareAscending(b, a, field)
  }

  lemma CompareJobsFlip(a: Job, b: Job, field: SortField, dir: SortDirection)
    ensures CompareJobs(b, a, field, dir) == -CompareJobs(a, b, field, dir)
  {
    if field == CompanyName { LocaleCompareFlip(a.companyName, b.companyName); }
  }

  lemma CompareJobsTransitive(a: Job, b: Job, c: Job, field: SortField, dir: SortDirection)
    requires CompareJobs(a, b, field, dir) <= 0 && CompareJobs(b, c, field, dir) <= 0
    ensures CompareJobs(a, c, field, dir) <= 0
  {
    if field == CompanyName {
      if dir == Asc { LocaleCompareTransitive(a.companyName, b.companyName, c.companyName); }
      else { LocaleCompareTransitive(c.companyName, b.companyName, a.companyName); }
    }
  }

  /** Every earlier job compares no later than every later one. */
  predicate SortedBy(s: seq<Job>, field: SortField, dir: SortDirection) {
    forall i, j :: 0 <= i < j < |s| ==> CompareJobs(s[i], s[j], field, dir) <= 0
  }

  /** `x` placed before the first job it does not compare after. */
  function Insert(x: Job, s: seq<Job>, field: SortField, dir: SortDirection): (r: seq<Job>)
    ensures multiset(r) == multiset(s) + multiset{x}
  {
    if s == [] then [x]
    else if CompareJobs(x, s[0], field, dir) <= 0 then [x] + s
    else
      assert s == [s[0]] + s[1..];
      [s[0]] + Insert(x, s[1..], field, dir)
  }

  /** A job that compares no later than every job of a sorted list can go
      in front of it. */
  lemma ConsSorted(y: Job, t: seq<Job>, field: SortField, dir: SortDirection)
    requires SortedBy(t, field, dir)
    requires forall k :: 0 <= k < |t| ==> CompareJobs(y, t[k], field, dir) <= 0
    ensures SortedBy([y] + t, field, dir)
  {
    var r := [y] + t;
    forall i, j | 0 <= i < j < |r| ensures CompareJobs(r[i], r[j], field, dir) <= 0 {
      if i == 0 { assert r[j] == t[j - 1]; } else { assert r[i] == t[i - 1] && r[j] == t[j - 1]; }
    }
  }

  /** What precedes every job of a list and one more job precedes every job
      of any rearrangement of them. */
  lemma PrecedesAll(y: Job, rest: seq<Job>, t: seq<Job>, x: Job, field: SortField, dir: SortDirection)
    requires multiset(rest) == multiset(t) + multiset{x}
    requires forall k :: 0 <= k < |t| ==> CompareJobs(y, t[k], field, dir) <= 0
    requires CompareJobs(y, x, field, dir) <= 0
    ensures forall k :: 0 <= k < |rest| ==> CompareJobs(y, rest[k], field, dir) <= 0
  {
    forall k | 0 <= k < |rest| ensures CompareJobs(y, rest[k], field, dir) <= 0 {
      assert rest[k] in multiset(rest);
      if rest[k] != x {
        assert rest[k] in multiset(t);
        var m :| 0 <= m < |t| && t[m] == rest[k];
      }
    }
  }

  lemma {:induction false} InsertSorted(x: Job, s: seq<Job>, field: SortField, dir: SortDirection)
    requires SortedBy(s, field, dir)
    ensures SortedBy(Insert(x, s, field, dir), field, dir)
  {
    if s == [] {
    } else if CompareJobs(x, s[0], field, dir) <= 0 {
      forall k | 0 <= k < |s| ensures CompareJobs(x, s[k], field, dir) <= 0 {
        if k > 0 { CompareJobsTransitive(x, s[0], s[k], field, dir); }
      }
      ConsSorted(x, s, field, dir);
    } else {
      var t := s[1..];
      var rest := Insert(x, t, field, dir);
      assert SortedBy(t, field, dir);
      InsertSorted(x, t, field, dir);
      CompareJobsFlip(x, s[0], field, dir);
      assert forall k :: 0 <= k < |t| ==> CompareJobs(s[0], t[k], field, dir) <= 0 by {
        forall k | 0 <= k < |t| ensures CompareJobs(s[0], t[k], field, dir) <= 0 { assert t[k] == s[k + 1]; }
      }
      PrecedesAll(s[0], rest, t, x, field, dir);
      ConsSorted(s[0], rest, field, dir);
    }
  }

  /** `[...filtered].sort(comparator)` as a stable insertion sort: the same
      jobs, each as often, now in comparator order. */
  function SortJobs(s: seq<Job>, field: SortField, dir: SortDirection): (r: seq<Job>)
    ensures multiset(r) == multiset(s)
    ensures SortedBy(r, field, dir)
  {
    if s == [] then []
    else
      var rest := SortJobs(s[1..], field, dir);
      InsertSorted(s[0], rest, field, dir);
      assert s == [s[0]] + s[1..];
      Insert(s[0], rest, field, dir)
  }

  /** The cards the list shows, in display order. */
  function VisibleJobs(jobs: seq<Job>, filter: JobFilter): seq<Job> {
    SortJobs(FilteredJobs(jobs, filter), EffectiveField(filter), EffectiveDirection(filter))
  }

  /** What is shown: a reordering of exactly the matching jobs (nothing added
      or duplicated, none that matches left out), in comparator order. */
  lemma VisibleJobsContents(jobs: seq<Job>, filter: JobFilter)
    ensures multiset(VisibleJobs(jobs, filter)) == multiset(FilteredJobs(jobs, filter))
    ensures forall j :: j in VisibleJobs(jobs, filter) <==> j in jobs && Matches(j, filter)
    ensures forall j ::
              multiset(VisibleJobs(jobs, filter))[j] == if Matches(j, filter) then multiset(jobs)[j] else 0
    ensures SortedBy(VisibleJobs(jobs, filter), EffectiveField(filter), EffectiveDirection(filter))
  {
    var r := VisibleJobs(jobs, filter);
    forall j ensures j in r <==> j in jobs && Matches(j, filter) {
      assert j in r <==> multiset(r)[j] > 0;
      assert j in jobs <==> multiset(jobs)[j] > 0;
    }
  }

  /** The two conditions spelled out: a shown job has the chosen status (any,
      when none is chosen) and, under an active search, the lower-cased term
      occurs in its lower-cased company name or title. */
  lemma VisibleJobsConditions(jobs: seq<Job>, filter: JobFilter, j: Job)
    ensures j in VisibleJobs(jobs, filter) <==>
      j in jobs &&
      (filter.status.None? || j.status == filter.status.value) &&
      (!SearchActive(filter) ||
       Occurs(Lower(j.companyName), Lower(filter.search.value)) ||
       Occurs(Lower(j.jobTitle), Lower(filter.search.value)))
  {
    VisibleJobsContents(jobs, filter);
    assert j in VisibleJobs(jobs, filter) <==> j in jobs && Matches(j, filter);
    MatchesMeaning(j, filter);
  }

  lemma MatchesMeaning(j: Job, filter: JobFilter)
    ensures Matches(j, filter) <==>
      (filter.status.None? || j.status == filter.status.value) &&
      (!SearchActive(filter) ||
       Occurs(Lower(j.companyName), Lower(filter.search.value)) ||
       Occurs(Lower(j.jobTitle), Lower(filter.search.value)))
  {
  }

  /** The order spelled out per field and direction, defaults included. */
  lemma VisibleJobsOrder(jobs: seq<Job>, filter: JobFilter, i: int, k: int)
    requires 0 <= i < k < |VisibleJobs(jobs, filter)|
    ensures var r, f, d := VisibleJobs(jobs, filter), EffectiveField(filter), EffectiveDirection(filter);
      (f == DateApplied && d == Asc ==> r[i].dateApplied <= r[k].dateApplied) &&
      (f == DateApplied && d == Desc ==> r[i].dateApplied >= r[k].dateApplied) &&
      (f == LastUpdated && d == Asc ==> r[i].lastUpdated <= r[k].lastUpdated) &&
      (f == LastUpdated && d == Desc ==> r[i].lastUpdated >= r[k].lastUpdated) &&
      (f == CompanyName && d == Asc ==> LocaleCompare(r[i].companyName, r[k].companyName) <= 0) &&
      (f == CompanyName && d == Desc ==> LocaleCompare(r[i].companyName, r[k].companyName) >= 0)
    ensures filter.sortBy.None? && filter.sortDirection.None? ==>
      VisibleJobs(jobs, filter)[i].dateApplied >= VisibleJobs(jobs, filter)[k].dateApplied
  {
    var r := VisibleJobs(jobs, filter);
    VisibleJobsContents(jobs, filter);
    assert CompareJobs(r[i], r[k], EffectiveField(filter), EffectiveDirection(filter)) <= 0;
    LocaleCompareFlip(r[i].companyName, r[k].companyName);
  }

  /** The hint under "No job applications found". */
  function EmptyStateMessage(filter: JobFilter): (msg: string)
    ensures msg == "Try adjusting your filters" <==> filter.status.Some? || SearchActive(filter)
    ensures msg == "Start by adding your first job application" <==>
      filter.status.None? && !SearchActive(filter)
  {
    if filter.status.Some? || SearchActive(filter) then "Try adjusting your filters"
    else "Start by adding your first job application"
  }
}
