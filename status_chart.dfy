/**
 * The status pie chart: one slice per status that occurs, in the order the
 * statuses first occur in the list, coloured by status.
 */
module StatusChart {
  import opened Types
  import opened Text
  import opened StatusTally

  /** The statuses of `jobs`, each once, in order of first occurrence: the
      key order of the tally object the source builds. */
  function FirstOccurrences(jobs: seq<Job>): (r: seq<JobStatus>)
    ensures NoDuplicates(r)
    ensures forall s :: s in r <==> HasStatus(jobs, s)
    ensures |r| <= |jobs|
  {
    if jobs == [] then []
    else
      var init := FirstOccurrences(jobs[..|jobs| - 1]);
      var st := jobs[|jobs| - 1].status;
      assert forall s :: HasStatus(jobs, s) <==> HasStatus(jobs[..|jobs| - 1], s) || s == st by {
        forall s ensures HasStatus(jobs, s) <==> HasStatus(jobs[..|jobs| - 1], s) || s == st {
          if HasStatus(jobs, s) && s != st {
            var i :| 0 <= i < |jobs| && jobs[i].status == s;
            assert jobs[..|jobs| - 1][i].status == s;
          }
          if HasStatus(jobs[..|jobs| - 1], s) {
            var i :| 0 <= i < |jobs| - 1 && jobs[..|jobs| - 1][i].status == s;
            assert jobs[i].status == s;
          }
        }
      }
      if st in init then init else init + [st]
  }

  /** Appending a job adds its status at the end when it is new. */
  lemma FirstOccurrencesSnoc(jobs: seq<Job>, j: Job)
    ensures FirstOccurrences(jobs + [j]) ==
      if j.status in FirstOccurrences(jobs) then FirstOccurrences(jobs) else FirstOccurrences(jobs) + [j.status]
  {
    assert (jobs + [j])[..|jobs|] == jobs;
  }

  /** One slice: the capitalised status and its count. */
  datatype Slice = Slice(name: string, value: nat)

  /** The slice colours, keyed by status value. */
  const STATUS_COLORS: map<string, string> := map[
    "interested" := "#60A5FA", "applied" := "#A78BFA", "interview" := "#FBBF24",
    "rejected" := "#EF4444", "offer" := "#10B981"]

  /** `STATUS_COLORS[name.toLowerCase()] || "#ccc"`. */
  function SliceColor(name: string): string {
    var key := Lower(name);
    if key in STATUS_COLORS && STATUS_COLORS[key] != "" then STATUS_COLORS[key] else "#ccc"
  }

  /** What the tally holds after the jobs of `prefix`. */
  predicate TallyOf(prefix: seq<Job>, keys: seq<JobStatus>, counts: map<JobStatus, nat>) {
    && keys == FirstOccurrences(prefix)
    && (forall s :: s in counts <==> s in keys)
    && (forall s :: s in counts ==> counts[s] == CountStatus(prefix, s))
  }

  /** One step of the `reduce`, over job `i`: `acc[status] = (acc[status] || 0) + 1`. */
  lemma TallyStep(jobs: seq<Job>, i: nat, keys: seq<JobStatus>, counts: map<JobStatus, nat>)
    requires i < |jobs| && TallyOf(jobs[..i], keys, counts)
    ensures TallyOf(jobs[..i + 1],
                    if jobs[i].status in counts then keys else keys + [jobs[i].status],
                    counts[jobs[i].status := (if jobs[i].status in counts then counts[jobs[i].status] else 0) + 1])
  {
    var prefix, j := jobs[..i], jobs[i];
    assert jobs[..i + 1] == prefix + [j];
    FirstOccurrencesSnoc(prefix, j);
    forall s ensures CountStatus(prefix + [j], s) == CountStatus(prefix, s) + (if s == j.status then 1 else 0) {
      CountStatusSnoc(prefix, j, s);
    }
    CountStatusPositive(prefix, j.status);
  }

  /** The source's `reduce`: the tally's keys in insertion order and the
      count under each key. */
  method Tally(jobs: seq<Job>) returns (keys: seq<JobStatus>, counts: map<JobStatus, nat>)
    ensures TallyOf(jobs, keys, counts)
  {
    keys := [];
    counts := map[];
    var i := 0;
    while i < |jobs|
      invariant 0 <= i <= |jobs|
      invariant TallyOf(jobs[..i], keys, counts)
    {
      var st := jobs[i].status;
      TallyStep(jobs, i, keys, counts);
      keys := if st in counts then keys else keys + [st];
      counts := counts[st := (if st in counts then counts[st] else 0) + 1];
      i := i + 1;
    }
    assert jobs[..i] == jobs;
  }

  /** The slice drawn for status `s`. */
  function SliceOf(jobs: seq<Job>, s: JobStatus): Slice {
    Slice(Capitalize(StatusName(s)), CountStatus(jobs, s))
  }

  /** The slices for `keys`, in key order. */
  function Slices(jobs: seq<Job>, keys: seq<JobStatus>): (r: seq<Slice>)
    ensures |r| == |keys|
    ensures forall i :: 0 <= i < |keys| ==> r[i] == SliceOf(jobs, keys[i])
  {
    if keys == [] then [] else Slices(jobs, keys[..|keys| - 1]) + [SliceOf(jobs, keys[|keys| - 1])]
  }

  /** The chart data: one slice per tally key, in key order. */
  method ChartData(jobs: seq<Job>) returns (data: seq<Slice>)
    ensures data == Slices(jobs, FirstOccurrences(jobs))
  {
    var keys, counts := Tally(jobs);
    data := [];
    var k := 0;
    while k < |keys|
      invariant 0 <= k <= |keys|
      invariant data == Slices(jobs, keys[..k])
    {
      assert keys[..k + 1][..k] == keys[..k];
      data := data + [Slice(Capitalize(StatusName(keys[k])), counts[keys[k]])];
      k := k + 1;
    }
    assert keys[..k] == keys;
  }

  /** The chart's two faces: the empty message, or the pie. */
  datatype ChartView = NoData | Pie(data: seq<Slice>)

  method Render(jobs: seq<Job>) returns (v: ChartView)
    ensures v.NoData? <==> jobs == []
    ensures v.Pie? ==> v.data == Slices(jobs, FirstOccurrences(jobs))
  {
    var data := ChartData(jobs);
    if |jobs| == 0 {
      v := NoData;
    } else {
      v := Pie(data);
    }
  }

  /** The slices cover the list: their values add up to the number of jobs,
      none is empty, and there is a slice for each status that occurs and
      for no other, each exactly once. */
  lemma FirstOccurrencesCover(jobs: seq<Job>)
    ensures SumCounts(jobs, FirstOccurrences(jobs)) == |jobs|
    ensures forall i :: 0 <= i < |FirstOccurrences(jobs)| ==> CountStatus(jobs, FirstOccurrences(jobs)[i]) > 0
    ensures forall s :: HasStatus(jobs, s) <==> s in FirstOccurrences(jobs)
    ensures forall i, j :: 0 <= i < j < |FirstOccurrences(jobs)| ==>
      FirstOccurrences(jobs)[i] != FirstOccurrences(jobs)[j]
    ensures FirstOccurrences(jobs) == [] <==> jobs == []
  {
    var keys := FirstOccurrences(jobs);
    forall i | 0 <= i < |jobs| ensures jobs[i].status in keys {
      assert HasStatus(jobs, jobs[i].status);
    }
    SumCountsIsLength(jobs, keys);
    forall i | 0 <= i < |keys| ensures CountStatus(jobs, keys[i]) > 0 {
      CountStatusPositive(jobs, keys[i]);
    }
    if jobs != [] {
      assert HasStatus(jobs, jobs[0].status);
    }
  }

  /** Every slice of a status gets that status's own colour, never the
      fallback grey, and the five colours are different. */
  lemma SliceColorOfStatus(s: JobStatus, t: JobStatus)
    ensures SliceColor(Capitalize(StatusName(s))) == STATUS_COLORS[StatusName(s)]
    ensures SliceColor(Capitalize(StatusName(s))) != "#ccc"
    ensures s != t ==> SliceColor(Capitalize(StatusName(s))) != SliceColor(Capitalize(StatusName(t)))
  {
    CapitalizedStatus(s);
    CapitalizedStatus(t);
    match s
    case Interested => case Applied => case Interview => case Rejected => case Offer =>
  }

  /** A status name not in the colour table (reachable only from corrupt
      data) is drawn grey. */
  lemma SliceColorFallback(name: string)
    requires Lower(name) !in STATUS_COLORS
    ensures SliceColor(name) == "#ccc"
  {
  }
}
