/**
 * The demonstration data the job list is seeded with when storage holds
 * nothing. Its dates are computed from the clock reading `now` taken when the
 * data is built.
 */
module SampleData {
  import opened Wrappers
  import opened Types
  import Decimal
  import StatusTally

  /** The calendar date `days` days before `now`, as its midnight (UTC):
      subtracting days and keeping only the `yyyy-MM-dd` part of the ISO text. */
  function DaysAgo(now: int, days: nat): (t: int)
    ensures t <= now - days * DAY_MS < t + DAY_MS
  {
    DayStart(now - days * DAY_MS)
  }

  /** Fewer days back never gives an earlier date. */
  lemma DaysAgoMonotone(now: int, fewer: nat, more: nat)
    requires fewer <= more
    ensures DaysAgo(now, more) <= DaysAgo(now, fewer)
  {
    DayStartMonotone(now - more * DAY_MS, now - fewer * DAY_MS);
  }

  /** One demonstration record as written in the data file: its dates as
      numbers of days before the clock reading. */
  datatype SeedRow = SeedRow(
    id: string, company: string, title: string, appliedDaysAgo: nat, link: string,
    status: JobStatus, resume: Option<string>, notes: Option<string>, updatedDaysAgo: nat)

  /** The eight demonstration records. */
  const SEED_ROWS: seq<SeedRow> := [
    SeedRow("job-1", "TechCorp", "Frontend Developer", 12, "https://example.com/job1", Interview,
            None, Some("Had first interview on May 1st. Waiting for feedback."), 5),
    SeedRow("job-2", "WebSolutions Inc.", "React Developer", 20, "https://example.com/job2", Rejected,
            None, Some("Received rejection email on May 5th."), 3),
    SeedRow("job-3", "DataViz LLC", "UI/UX Developer", 8, "https://example.com/job3", Applied,
            None, Some("Application submitted through their careers portal."), 8),
    SeedRow("job-4", "StartupX", "Full Stack Developer", 2, "https://example.com/job4", Applied,
            Some("Sample resume text for this application..."), None, 2),
    SeedRow("job-5", "BigTech Co.", "Senior Frontend Engineer", 30, "https://example.com/job5", Offer,
            None, Some("Received offer: $120k/year. Need to respond by May 15th."), 1),
    SeedRow("job-6", "Agency XYZ", "JavaScript Developer", 15, "https://example.com/job6", Interview,
            None, Some("Technical interview scheduled for next week."), 2),
    SeedRow("job-7", "InnovateTech", "React Native Developer", 1, "https://example.com/job7", Interested,
            None, Some("Interesting position, need to prepare resume for this role."), 1),
    SeedRow("job-8", "SoftwarePro", "Frontend Architect", 5, "https://example.com/job8", Applied,
            None, Some("Applied via LinkedIn Easy Apply."), 5)]

  /** The job a record stands for at clock reading `now`: every record has a
      link and no follow-up date. */
  function FromRow(r: SeedRow, now: int): Job {
    Job(r.id, r.company, r.title, DaysAgo(now, r.appliedDaysAgo), Some(r.link), r.resume, r.status,
        r.notes, None, DaysAgo(now, r.updatedDaysAgo))
  }

  /** The jobs for `rows`, one per record and in record order. */
  function BuildJobs(rows: seq<SeedRow>, now: int): (js: seq<Job>)
    ensures |js| == |rows|
    ensures forall i :: 0 <= i < |rows| ==> js[i] == FromRow(rows[i], now)
  {
    if rows == [] then [] else [FromRow(rows[0], now)] + BuildJobs(rows[1..], now)
  }

  /** The demonstration applications, with their dates taken from the clock
      reading `now` when the data is built. */
  function SampleJobs(now: int): seq<Job> {
    BuildJobs(SEED_ROWS, now)
  }

  /** The facts about the record table itself. */
  lemma SeedRowsFacts()
    ensures |SEED_ROWS| == 8
    ensures forall i :: 0 <= i < 8 ==> SEED_ROWS[i].id == "job-" + [Decimal.DigitChar(i + 1)]
    ensures forall i :: 0 <= i < 8 ==> SEED_ROWS[i].company != "" && SEED_ROWS[i].title != ""
    ensures forall i :: 0 <= i < 8 ==> SEED_ROWS[i].updatedDaysAgo <= SEED_ROWS[i].appliedDaysAgo
  {
  }

  /** Eight records, named `job-1` to `job-8` in order, so no two share an id,
      and none has an empty company name or job title. */
  lemma SampleJobsIds(now: int)
    ensures |SampleJobs(now)| == 8
    ensures forall i :: 0 <= i < 8 ==> SampleJobs(now)[i].id == "job-" + Decimal.NatToString(i + 1)
    ensures forall i, j :: 0 <= i < j < 8 ==> SampleJobs(now)[i].id != SampleJobs(now)[j].id
    ensures forall i :: 0 <= i < 8 ==>
      SampleJobs(now)[i].companyName != "" && SampleJobs(now)[i].jobTitle != ""
  {
    SeedRowsFacts();
    var s := SampleJobs(now);
    forall i | 0 <= i < 8 ensures s[i].id == "job-" + Decimal.NatToString(i + 1) {
      assert Decimal.NatToString(i + 1) == [Decimal.DigitChar(i + 1)];
    }
    forall i, j | 0 <= i < j < 8 ensures s[i].id != s[j].id {
      Decimal.PrefixedNumeralInjective("job-", i + 1, j + 1);
    }
  }

  /** The statuses of `rows`, in order. */
  function RowStatuses(rows: seq<SeedRow>): (ss: seq<JobStatus>)
    ensures |ss| == |rows|
  {
    if rows == [] then [] else [rows[0].status] + RowStatuses(rows[1..])
  }

  /** Building jobs from records keeps every record's status. */
  lemma {:induction false} CountStatusOfRows(rows: seq<SeedRow>, now: int, st: JobStatus)
    ensures StatusTally.CountStatus(BuildJobs(rows, now), st) == StatusTally.Occurrences(RowStatuses(rows), st)
  {
    if rows != [] {
      CountStatusOfRows(rows[1..], now, st);
      StatusTally.CountStatusCons(FromRow(rows[0], now), BuildJobs(rows[1..], now), st);
      assert RowStatuses(rows)[1..] == RowStatuses(rows[1..]);
    }
  }

  /** The statuses of the eight records, in order. */
  lemma SeedRowStatuses()
    ensures RowStatuses(SEED_ROWS) == [Interview, Rejected, Applied, Applied, Offer, Interview, Interested, Applied]
  {
  }

  lemma SeedStatusCounts()
    ensures var ss := [Interview, Rejected, Applied, Applied, Offer, Interview, Interested, Applied];
      StatusTally.Occurrences(ss, Applied) == 3 && StatusTally.Occurrences(ss, Interview) == 2 &&
      StatusTally.Occurrences(ss, Interested) == 1 && StatusTally.Occurrences(ss, Rejected) == 1 &&
      StatusTally.Occurrences(ss, Offer) == 1
  {
  }

  /** Three applied, two interviews, and one each of interested, rejected and offer. */
  lemma SampleJobsStatuses(now: int)
    ensures StatusTally.CountStatus(SampleJobs(now), Applied) == 3
    ensures StatusTally.CountStatus(SampleJobs(now), Interview) == 2
    ensures StatusTally.CountStatus(SampleJobs(now), Interested) == 1
    ensures StatusTally.CountStatus(SampleJobs(now), Rejected) == 1
    ensures StatusTally.CountStatus(SampleJobs(now), Offer) == 1
  {
    SeedRowStatuses();
    SeedStatusCounts();
    CountStatusOfRows(SEED_ROWS, now, Applied);
    CountStatusOfRows(SEED_ROWS, now, Interview);
    CountStatusOfRows(SEED_ROWS, now, Interested);
    CountStatusOfRows(SEED_ROWS, now, Rejected);
    CountStatusOfRows(SEED_ROWS, now, Offer);
  }

  /** No record was last updated before the day it was applied for. */
  lemma SampleJobsUpdatedAfterApplied(now: int)
    ensures forall i :: 0 <= i < |SampleJobs(now)| ==>
      SampleJobs(now)[i].dateApplied <= SampleJobs(now)[i].lastUpdated
  {
    SeedRowsFacts();
    forall i | 0 <= i < |SEED_ROWS| {
      DaysAgoMonotone(now, SEED_ROWS[i].updatedDaysAgo, SEED_ROWS[i].appliedDaysAgo);
    }
  }
}
