/**
 * The records of the application: job applications, their status and the
 * list filter, with dates as integer milliseconds since the epoch.
 */
module Types {
  import opened Wrappers
  import opened Text

  /** The five stages of an application. */
  datatype JobStatus = Interested | Applied | Interview | Rejected | Offer

  /** Every status, in the order the select menus list them. */
  const AllStatuses: seq<JobStatus> := [Interested, Applied, Interview, Rejected, Offer]

  /** The string a status is stored and selected as. */
  function StatusName(s: JobStatus): string {
    match s
    case Interested => "interested"
    case Applied => "applied"
    case Interview => "interview"
    case Rejected => "rejected"
    case Offer => "offer"
  }

  /** The status a string names, if any. */
  function ParseStatus(v: string): (r: Option<JobStatus>)
    ensures r.Some? ==> StatusName(r.value) == v
    ensures r.None? ==> forall s: JobStatus :: StatusName(s) != v
  {
    if v == "interested" then Some(Interested)
    else if v == "applied" then Some(Applied)
    else if v == "interview" then Some(Interview)
    else if v == "rejected" then Some(Rejected)
    else if v == "offer" then Some(Offer)
    else None
  }

  /** Every status name parses back to its status. */
  lemma ParseStatusName(s: JobStatus)
    ensures ParseStatus(StatusName(s)) == Some(s)
  {
    match s
    case Interested =>
    case Applied =>
    case Interview =>
    case Rejected =>
    case Offer =>
  }

  /** Different statuses have different names. */
  lemma StatusNameInjective(s: JobStatus, t: JobStatus)
    ensures StatusName(s) == StatusName(t) <==> s == t
  {
    ParseStatusName(s);
    ParseStatusName(t);
  }

  /** A status name capitalised for display lower-cases back to the name;
      so different statuses are displayed differently. */
  lemma CapitalizedStatus(s: JobStatus)
    ensures Lower(Capitalize(StatusName(s))) == StatusName(s)
  {
    assert IsLowerAsciiWord(StatusName(s)) by {
      match s
      case Interested => case Applied => case Interview => case Rejected => case Offer =>
    }
    LowerCapitalize(StatusName(s));
  }

  /** One tracked application. `jobLink`, `resumeText`, `notes` and
      `followUpDate` are optional properties. */
  datatype Job = Job(
    id: string,
    companyName: string,
    jobTitle: string,
    dateApplied: int,
    jobLink: Option<string>,
    resumeText: Option<string>,
    status: JobStatus,
    notes: Option<string>,
    followUpDate: Option<int>,
    lastUpdated: int)

  datatype SortField = DateApplied | CompanyName | LastUpdated
  datatype SortDirection = Asc | Desc

  /** The list query; every part is optional. */
  datatype JobFilter = JobFilter(
    status: Option<JobStatus>,
    search: Option<string>,
    sortBy: Option<SortField>,
    sortDirection: Option<SortDirection>)

  /** Milliseconds in a day. */
  const DAY_MS: int := 24 * 60 * 60 * 1000

  /** Midnight (UTC) of the day holding instant `t`. */
  function DayStart(t: int): (d: int)
    ensures d <= t < d + DAY_MS
    ensures d % DAY_MS == 0
  {
    t - t % DAY_MS
  }

  /** Midnight is monotone in the instant. */
  lemma DayStartMonotone(a: int, b: int)
    requires a <= b
    ensures DayStart(a) <= DayStart(b)
  {
  }
}
