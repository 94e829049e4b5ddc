/**
 * The dashboard's three cards: total applications (with how many were
 * made in the last seven days), active interviews and offers received.
 */
module StatCards {
  import opened Types
  import opened StatusTally

  /** The status tally built by the source's `reduce`: a key for each status
      that occurs, holding how many jobs have it. */
  method TallyStatuses(jobs: seq<Job>) returns (counts: map<JobStatus, nat>)
    ensures forall s :: s in counts <==> HasStatus(jobs, s)
    ensures forall s :: s in counts ==> counts[s] == CountStatus(jobs, s)
  {
    counts := map[];
    var i := 0;
    while i < |jobs|
      invariant 0 <= i <= |jobs|
      invariant forall s :: s in counts <==> HasStatus(jobs[..i], s)
      invariant forall s :: s in counts ==> counts[s] == CountStatus(jobs[..i], s)
    {
      var st := jobs[i].status;
      var prev := if st in counts then counts[st] else 0;
      assert jobs[..i + 1] == jobs[..i] + [jobs[i]];
      forall s ensures CountStatus(jobs[..i + 1], s) == CountStatus(jobs[..i], s) + (if s == st then 1 else 0) {
        CountStatusSnoc(jobs[..i], jobs[i], s);
      }
      CountStatusPositive(jobs[..i], st);
      forall s ensures HasStatus(jobs[..i + 1], s) <==> HasStatus(jobs[..i], s) || s == st {
        CountStatusPositive(jobs[..i], s);
        CountStatusPositive(jobs[..i + 1], s);
      }
      counts := counts[st := prev + 1];
      i := i + 1;
    }
    assert jobs[..i] == jobs;
  }

  /** `counts[s] || 0`: a missing key reads as zero. */
  function CountOrZero(counts: map<JobStatus, nat>, s: JobStatus): nat {
    if s in counts then counts[s] else 0
  }

  /** How many jobs were applied for at or after `cutoff`. */
  function RecentCount(jobs: seq<Job>, cutoff: int): (n: nat)
    ensures n <= |jobs|
  {
    if jobs == [] then 0
    else (if jobs[0].dateApplied >= cutoff then 1 else 0) + RecentCount(jobs[1..], cutoff)
  }

  /** A later cutoff never counts more jobs; a cutoff no later than every
      application date counts them all. */
  lemma {:induction false} RecentCountMonotone(jobs: seq<Job>, early: int, late: int)
    requires early <= late
    ensures RecentCount(jobs, late) <= RecentCount(jobs, early)
    ensures (forall i :: 0 <= i < |jobs| ==> jobs[i].dateApplied >= early) ==>
      RecentCount(jobs, early) == |jobs|
  {
    if jobs != [] {
      RecentCountMonotone(jobs[1..], early, late);
      if forall i :: 0 <= i < |jobs| ==> jobs[i].dateApplied >= early {
        assert forall i :: 0 <= i < |jobs| - 1 ==> jobs[1..][i].dateApplied >= early by {
          forall i | 0 <= i < |jobs| - 1 ensures jobs[1..][i].dateApplied >= early {
            assert jobs[1..][i] == jobs[i + 1];
          }
        }
      }
    }
  }

  /** The figures on the three cards. */
  datatype Cards = Cards(total: nat, recent: nat, interviews: nat, offers: nat)

  /** The cards for `jobs` at time `now` (milliseconds); the seven days are
      taken as seven whole days of milliseconds before `now`. */
  method ComputeCards(jobs: seq<Job>, now: int) returns (c: Cards)
    ensures c.total == |jobs|
    ensures c.recent == RecentCount(jobs, now - 7 * DAY_MS)
    ensures c.interviews == CountStatus(jobs, Interview)
    ensures c.offers == CountStatus(jobs, Offer)
    ensures c.recent <= c.total && c.interviews + c.offers <= c.total
  {
    var counts := TallyStatuses(jobs);
    CountStatusPositive(jobs, Interview);
    CountStatusPositive(jobs, Offer);
    StatusCountsSumToTotal(jobs);
    c := Cards(|jobs|, RecentCount(jobs, now - 7 * DAY_MS),
               CountOrZero(counts, Interview), CountOrZero(counts, Offer));
  }
}
