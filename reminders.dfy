/**
 * The dashboard's upcoming reminders: a follow-up for each application left
 * unanswered for more than five days, and one for each follow-up date still
 * ahead; sorted by date, kept when dated today or later, at most five shown.
 */
module UpcomingReminders {
  import opened Wrappers
  import opened Types
  import opened Seqs

  datatype ReminderKind = FollowUpKind | InterviewKind | DeadlineKind

  /** One reminder; `date` is in milliseconds. */
  datatype Reminder = Reminder(id: string, title: string, description: string, date: int, kind: ReminderKind)

  /** `addDays(today, -5)`: five whole days of milliseconds before `now`. */
  function FollowUpCutoff(now: int): int {
    now - 5 * DAY_MS
  }

  /** An application still waiting for an answer more than five days on. */
  predicate FollowUpDue(job: Job, now: int) {
    job.status == Applied && job.dateApplied < FollowUpCutoff(now)
  }

  /** A follow-up date is set and lies strictly after `now`. */
  predicate ScheduledAhead(job: Job, now: int) {
    job.followUpDate.Some? && job.followUpDate.value > now
  }

  /** The follow-up reminder for `job`, dated `now`. */
  function FollowUp(job: Job, now: int): Reminder {
    Reminder("followup-" + job.id, "Follow up with " + job.companyName,
             "It's been over 5 days since you applied for the " + job.jobTitle + " position",
             now, FollowUpKind)
  }

  /** The scheduled reminder for `job`, dated at its follow-up date. */
  function Scheduled(job: Job): Reminder
    requires job.followUpDate.Some?
  {
    Reminder("scheduled-" + job.id, "Scheduled follow-up for " + job.companyName,
             job.jobTitle + " position", job.followUpDate.value, DeadlineKind)
  }

  /** What one pass of the `forEach` body pushes for `job`. */
  function JobReminders(job: Job, now: int): seq<Reminder> {
    (if FollowUpDue(job, now) then [FollowUp(job, now)] else []) +
    (if ScheduledAhead(job, now) then [Scheduled(job)] else [])
  }

  /** A job yields its follow-up exactly when it is due and its scheduled
      reminder exactly when the date is ahead, nothing else, and never two
      reminders with the same id. */
  lemma JobRemindersShape(job: Job, now: int)
    ensures |JobReminders(job, now)| <= 2
    ensures FollowUp(job, now) in JobReminders(job, now) <==> FollowUpDue(job, now)
    ensures ScheduledAhead(job, now) <==> job.followUpDate.Some? && Scheduled(job) in JobReminders(job, now)
    ensures forall x :: x in JobReminders(job, now) ==> YieldedBy(x, job, now)
    ensures |JobReminders(job, now)| == 2 ==> JobReminders(job, now)[0].id != JobReminders(job, now)[1].id
  {
    assert ("followup-" + job.id)[0] == 'f';
    assert job.followUpDate.Some? ==> ("scheduled-" + job.id)[0] == 's';
  }

  /** Everything pushed for the first `n` jobs, in push order. */
  function GeneratedUpTo(jobs: seq<Job>, n: nat, now: int): (r: seq<Reminder>)
    requires n <= |jobs|
    ensures |r| <= 2 * n
  {
    if n == 0 then [] else
    JobRemindersShape(jobs[n - 1], now);
    GeneratedUpTo(jobs, n - 1, now) + JobReminders(jobs[n - 1], now)
  }

  /** The `reminders` array once the `forEach` is done. */
  function Generated(jobs: seq<Job>, now: int): seq<Reminder> {
    GeneratedUpTo(jobs, |jobs|, now)
  }

  /** The `forEach` loop pushing each job's reminders in turn. */
  method Generate(jobs: seq<Job>, now: int) returns (reminders: seq<Reminder>)
    ensures reminders == Generated(jobs, now)
    ensures |reminders| <= 2 * |jobs|
  {
    reminders := [];
    var i := 0;
    while i < |jobs|
      invariant 0 <= i <= |jobs|
      invariant reminders == GeneratedUpTo(jobs, i, now)
    {
      var job := jobs[i];
      ghost var before := reminders;
      if FollowUpDue(job, now) {
        reminders := reminders + [FollowUp(job, now)];
      }
      if ScheduledAhead(job, now) {
        reminders := reminders + [Scheduled(job)];
      }
      assert reminders == before + JobReminders(job, now);
      i := i + 1;
    }
  }

  /** A reminder is generated exactly when some job yields it. */
  lemma {:induction false} GeneratedMembers(jobs: seq<Job>, n: nat, now: int, x: Reminder)
    requires n <= |jobs|
    ensures x in GeneratedUpTo(jobs, n, now) <==> exists k :: 0 <= k < n && x in JobReminders(jobs[k], now)
  {
    if n > 0 {
      GeneratedMembers(jobs, n - 1, now, x);
      var last := JobReminders(jobs[n - 1], now);
      if x in last {
        assert 0 <= n - 1 < n && x in JobReminders(jobs[n - 1], now);
      }
      if k :| 0 <= k < n && x in JobReminders(jobs[k], now) {
        if k < n - 1 {
          assert x in GeneratedUpTo(jobs, n - 1, now);
        } else {
          assert x in last;
        }
      }
    }
  }

  /** `x` is the due follow-up of `job` or its scheduled reminder still ahead. */
  predicate YieldedBy(x: Reminder, job: Job, now: int) {
    || (FollowUpDue(job, now) && x == FollowUp(job, now))
    || (ScheduledAhead(job, now) && x == Scheduled(job))
  }

  /** The follow-up of job `k` is generated when it is due, and the
      scheduled reminder of job `k` when its date is ahead; a follow-up or
      scheduled reminder that is generated belongs to a job it is due for. */
  lemma GeneratedFor(jobs: seq<Job>, now: int, k: nat)
    requires k < |jobs|
    ensures FollowUpDue(jobs[k], now) ==> FollowUp(jobs[k], now) in Generated(jobs, now)
    ensures ScheduledAhead(jobs[k], now) ==> Scheduled(jobs[k]) in Generated(jobs, now)
    ensures forall x :: x in Generated(jobs, now) ==> exists j :: 0 <= j < |jobs| && YieldedBy(x, jobs[j], now)
  {
    JobRemindersShape(jobs[k], now);
    GeneratedMembers(jobs, |jobs|, now, FollowUp(jobs[k], now));
    if jobs[k].followUpDate.Some? {
      GeneratedMembers(jobs, |jobs|, now, Scheduled(jobs[k]));
    }
    forall x | x in Generated(jobs, now)
      ensures exists j :: 0 <= j < |jobs| && YieldedBy(x, jobs[j], now)
    {
      GeneratedMembers(jobs, |jobs|, now, x);
      var j :| 0 <= j < |jobs| && x in JobReminders(jobs[j], now);
      JobRemindersShape(jobs[j], now);
    }
  }

  /** `isAfter(r.date, today)`, or the same calendar day as today. */
  predicate IsUpcoming(r: Reminder, now: int) {
    r.date > now || DayStart(r.date) == DayStart(now)
  }

  /** Every generated reminder is dated today or later. */
  lemma GeneratedAreUpcoming(jobs: seq<Job>, now: int)
    ensures forall x :: x in Generated(jobs, now) ==> IsUpcoming(x, now)
  {
    if jobs != [] {
      GeneratedFor(jobs, now, 0);
    }
  }

  predicate SortedByDate(s: seq<Reminder>) {
    forall p, q :: 0 <= p < q < |s| ==> s[p].date <= s[q].date
  }

  /** `reminders.sort((a, b) => a.date - b.date)`, in place: an insertion
      sort that moves each reminder left past the later-dated ones. */
  method SortByDate(a: array<Reminder>)
    modifies a
    ensures SortedByDate(a[..])
    ensures multiset(a[..]) == multiset(old(a[..]))
  {
    var i := 0;
    while i < a.Length
      invariant 0 <= i <= a.Length
      invariant SortedByDate(a[..i])
      invariant multiset(a[..]) == multiset(old(a[..]))
    {
      InsertAt(a, i);
      i := i + 1;
    }
    assert a[..i] == a[..];
  }

  /** One pass of the insertion sort: with `a[..i]` in date order, swap
      `a[i]` leftwards past every strictly later reminder. */
  method InsertAt(a: array<Reminder>, i: nat)
    requires i < a.Length && SortedByDate(a[..i])
    modifies a
    ensures SortedByDate(a[..i + 1])
    ensures multiset(a[..]) == multiset(old(a[..]))
  {
    InsertStart(a[..], i);
    var j := i;
    while j > 0 && a[j - 1].date > a[j].date
      invariant 0 <= j <= i
      invariant Inserting(a[..], i, j)
      invariant multiset(a[..]) == multiset(old(a[..]))
    {
      ghost var s := a[..];
      SwapStep(s, i, j);
      a[j - 1], a[j] := a[j], a[j - 1];
      assert a[..] == s[j - 1 := s[j]][j := s[j - 1]];
      j := j - 1;
    }
    InsertDone(a[..], i, j);
  }

  /** The state of the insertion pass while the moving reminder sits at `j`:
      `s[..i + 1]` without position `j` is in date order, and the moving
      reminder is dated no later than anything to its right. */
  predicate Inserting(s: seq<Reminder>, i: nat, j: nat)
    requires j <= i < |s|
  {
    && (forall p, q :: 0 <= p < q <= i && p != j && q != j ==> s[p].date <= s[q].date)
    && (forall q :: j < q <= i ==> s[j].date <= s[q].date)
  }

  lemma InsertStart(s: seq<Reminder>, i: nat)
    requires i < |s| && SortedByDate(s[..i])
    ensures Inserting(s, i, i)
  {
    forall p, q | 0 <= p < q < i ensures s[p].date <= s[q].date {
      assert s[..i][p] == s[p] && s[..i][q] == s[q];
    }
  }

  /** Swapping the moving reminder with a strictly later left neighbour. */
  lemma SwapStep(s: seq<Reminder>, i: nat, j: nat)
    requires 0 < j <= i < |s| && Inserting(s, i, j) && s[j - 1].date > s[j].date
    ensures Inserting(s[j - 1 := s[j]][j := s[j - 1]], i, j - 1)
    ensures multiset(s[j - 1 := s[j]][j := s[j - 1]]) == multiset(s)
  {
    var t := s[j - 1 := s[j]][j := s[j - 1]];
    forall p, q | 0 <= p < q <= i && p != j - 1 && q != j - 1 ensures t[p].date <= t[q].date {
      if p == j {
      } else if q == j {
      }
    }
  }

  /** The pass ends when the moving reminder reaches the front or sits
      after a reminder dated no later. */
  lemma InsertDone(s: seq<Reminder>, i: nat, j: nat)
    requires j <= i < |s| && Inserting(s, i, j)
    requires j == 0 || s[j - 1].date <= s[j].date
    ensures SortedByDate(s[..i + 1])
  {
    forall p, q | 0 <= p < q <= i ensures s[p].date <= s[q].date {
      if q == j && p < j - 1 {
        assert s[p].date <= s[j - 1].date;
      }
    }
  }

  /** `filter(isUpcoming)`: the upcoming reminders, in order. */
  function UpcomingOnly(rs: seq<Reminder>, now: int): (r: seq<Reminder>)
    ensures Subsequence(r, rs)
    ensures forall x :: x in r ==> IsUpcoming(x, now)
    ensures (forall x :: x in rs ==> IsUpcoming(x, now)) ==> r == rs
  {
    if rs == [] then []
    else
      var rest := UpcomingOnly(rs[1..], now);
      assert rs == [rs[0]] + rs[1..];
      if IsUpcoming(rs[0], now) then
        SubsequenceKeep(rest, rs[1..], rs[0]);
        [rs[0]] + rest
      else
        SubsequenceSkip(rest, rs[1..], rs[0]);
        rest
  }

  /** The most reminders the card lists. */
  const MAX_SHOWN: nat := 5

  /** `.filter(isUpcoming).slice(0, 5)`. */
  function Shown(sorted: seq<Reminder>, now: int): (r: seq<Reminder>)
    ensures |r| <= MAX_SHOWN
    ensures forall x :: x in r ==> IsUpcoming(x, now)
    ensures (forall x :: x in sorted ==> IsUpcoming(x, now)) ==>
      r == sorted[..if |sorted| < MAX_SHOWN then |sorted| else MAX_SHOWN]
  {
    var u := UpcomingOnly(sorted, now);
    u[..if |u| < MAX_SHOWN then |u| else MAX_SHOWN]
  }

  /** Once the generated reminders are put in date order, the filter keeps
      them all, so the card shows a prefix of them, itself in date order. */
  lemma SortedGeneratedShown(jobs: seq<Job>, now: int, sorted: seq<Reminder>)
    requires multiset(sorted) == multiset(Generated(jobs, now)) && SortedByDate(sorted)
    ensures Shown(sorted, now) == sorted[..if |sorted| < MAX_SHOWN then |sorted| else MAX_SHOWN]
    ensures SortedByDate(Shown(sorted, now))
  {
    GeneratedAreUpcoming(jobs, now);
    forall x | x in sorted ensures IsUpcoming(x, now) {
      assert x in multiset(sorted);
    }
  }

  /** The whole card: generate, sort a copy in place, filter, cut. The list
      shown is the first `min(5, n)` of the `n` generated reminders once
      they are ordered by date. */
  method UpcomingList(jobs: seq<Job>, now: int) returns (shown: seq<Reminder>, sorted: seq<Reminder>)
    ensures multiset(sorted) == multiset(Generated(jobs, now))
    ensures SortedByDate(sorted)
    ensures shown == Shown(sorted, now)
    ensures shown == sorted[..if |sorted| < MAX_SHOWN then |sorted| else MAX_SHOWN]
    ensures |shown| <= MAX_SHOWN && SortedByDate(shown)
    ensures forall x :: x in shown ==> IsUpcoming(x, now)
  {
    var reminders := Generate(jobs, now);
    var a := new Reminder[|reminders|](k requires 0 <= k < |reminders| => reminders[k]);
    assert a[..] == reminders;
    SortByDate(a);
    sorted := a[..];
    SortedGeneratedShown(jobs, now, sorted);
    shown := Shown(sorted, now);
  }
}
