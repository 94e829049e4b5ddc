/**
 * The job repository: the list of applications, its three transitions, and
 * the provider that loads it from storage (or seeds it) and writes the whole
 * list back after every change.
 */
module JobsContext {
  import opened Types
  import opened Seqs

  /** The storage key the list is kept under. */
  const STORAGE_KEY: string := "jobApplications"

  /** `[...jobs, job]`: the new job goes last and nothing else moves. No id is
      checked, so a job whose id is already present is added beside it. */
  function AppendJob(jobs: seq<Job>, job: Job): (r: seq<Job>)
    ensures |r| == |jobs| + 1
    ensures r[..|jobs|] == jobs && r[|jobs|] == job
  {
    jobs + [job]
  }

  /** `jobs.map(j => j.id === updated.id ? updated : j)`: same length and
      positions; every job carrying the id becomes `updated`, the others stay. */
  function ReplaceJob(jobs: seq<Job>, updated: Job): (r: seq<Job>)
    ensures |r| == |jobs|
    ensures forall i :: 0 <= i < |jobs| ==>
      r[i] == if jobs[i].id == updated.id then updated else jobs[i]
  {
    if jobs == [] then []
    else [if jobs[0].id == updated.id then updated else jobs[0]] + ReplaceJob(jobs[1..], updated)
  }

  /** `jobs.filter(j => j.id !== id)`: the jobs without that id, each as often
      as before and in the same relative order; none with the id. */
  function RemoveJob(jobs: seq<Job>, id: string): (r: seq<Job>)
    ensures forall j :: multiset(r)[j] == if j.id == id then 0 else multiset(jobs)[j]
    ensures Subsequence(r, jobs)
  {
    if jobs == [] then []
    else
      var rest := RemoveJob(jobs[1..], id);
      assert jobs == [jobs[0]] + jobs[1..];
      if jobs[0].id == id then
        SubsequenceSkip(rest, jobs[1..], jobs[0]);
        rest
      else
        SubsequenceKeep(rest, jobs[1..], jobs[0]);
        [jobs[0]] + rest
  }

  /** Updating with an id no job carries changes nothing. */
  lemma ReplaceJobAbsent(jobs: seq<Job>, updated: Job)
    requires forall i :: 0 <= i < |jobs| ==> jobs[i].id != updated.id
    ensures ReplaceJob(jobs, updated) == jobs
  {
    assert forall i :: 0 <= i < |jobs| ==> ReplaceJob(jobs, updated)[i] == jobs[i];
  }

  /** Deleting the same id twice is deleting it once. */
  lemma {:induction false} RemoveJobIdempotent(jobs: seq<Job>, id: string)
    ensures RemoveJob(RemoveJob(jobs, id), id) == RemoveJob(jobs, id)
  {
    if jobs != [] {
      RemoveJobIdempotent(jobs[1..], id);
    }
  }

  /** Deleting an id no job carries changes nothing. */
  lemma {:induction false} RemoveJobAbsent(jobs: seq<Job>, id: string)
    requires forall i :: 0 <= i < |jobs| ==> jobs[i].id != id
    ensures RemoveJob(jobs, id) == jobs
  {
    if jobs != [] {
      assert jobs[0].id != id;
      RemoveJobAbsent(jobs[1..], id);
    }
  }

  /** The jobs on first load: the stored list when there is one, otherwise the
      demonstration data `sample`. */
  function LoadedJobs(storage: map<string, seq<Job>>, sample: seq<Job>): seq<Job> {
    if STORAGE_KEY in storage then storage[STORAGE_KEY] else sample
  }

  /** The provider's state: the list, the loading flag and the browser storage
      (holding decoded lists; encoding and decoding are taken to round-trip).
      `sample` is the demonstration list, `SampleData.SampleJobs(now)` for the
      clock reading `now` taken when the data module was loaded. */
  class JobsProvider {
    var jobs: seq<Job>
    var isLoading: bool
    var storage: map<string, seq<Job>>
    const sample: seq<Job>

    /** Mounting: an empty list, still loading. The write-through effect also
        runs on mount, but writes nothing while loading. */
    constructor (storage: map<string, seq<Job>>, sample: seq<Job>)
      ensures jobs == [] && isLoading && this.storage == storage && this.sample == sample
    {
      jobs := [];
      isLoading := true;
      this.storage := storage;
      this.sample := sample;
    }

    /** The write-through effect, run after every change of `jobs` or
        `isLoading`: the whole list under the storage key, unless loading. */
    method Persist()
      modifies this
      ensures jobs == old(jobs) && isLoading == old(isLoading)
      ensures storage == if isLoading then old(storage) else old(storage)[STORAGE_KEY := jobs]
    {
      if !isLoading {
        storage := storage[STORAGE_KEY := jobs];
      }
    }

    /** The load effect: the stored list, or the seed when nothing is stored;
        loading ends either way, and the list is then written back. */
    method LoadOrSeed()
      modifies this
      ensures jobs == LoadedJobs(old(storage), sample)
      ensures STORAGE_KEY in old(storage) ==> jobs == old(storage)[STORAGE_KEY]
      ensures STORAGE_KEY !in old(storage) ==> jobs == sample
      ensures !isLoading
      ensures storage == old(storage)[STORAGE_KEY := jobs]
    {
      if STORAGE_KEY in storage {
        jobs := storage[STORAGE_KEY];
      } else {
        jobs := sample;
      }
      isLoading := false;
      Persist();
    }

    method AddJob(job: Job)
      modifies this
      ensures jobs == AppendJob(old(jobs), job) && isLoading == old(isLoading)
      ensures storage == if isLoading then old(storage) else old(storage)[STORAGE_KEY := jobs]
    {
      jobs := AppendJob(jobs, job);
      Persist();
    }

    method UpdateJob(updated: Job)
      modifies this
      ensures jobs == ReplaceJob(old(jobs), updated) && isLoading == old(isLoading)
      ensures storage == if isLoading then old(storage) else old(storage)[STORAGE_KEY := jobs]
    {
      jobs := ReplaceJob(jobs, updated);
      Persist();
    }

    method DeleteJob(id: string)
      modifies this
      ensures jobs == RemoveJob(old(jobs), id) && isLoading == old(isLoading)
      ensures storage == if isLoading then old(storage) else old(storage)[STORAGE_KEY := jobs]
    {
      jobs := RemoveJob(jobs, id);
      Persist();
    }
  }

  /** A session that loads, adds a job and deletes an id, followed by a fresh
      session over the storage it left: the second session starts from exactly
      the list the first one ended with. */
  method ReloadAfterChanges(storage: map<string, seq<Job>>, sample: seq<Job>, job: Job, gone: string)
    returns (ended: seq<Job>, reloaded: seq<Job>)
    ensures ended == RemoveJob(AppendJob(LoadedJobs(storage, sample), job), gone)
    ensures reloaded == ended
  {
    var first := new JobsProvider(storage, sample);
    first.LoadOrSeed();
    first.AddJob(job);
    first.DeleteJob(gone);
    ended := first.jobs;
    var second := new JobsProvider(first.storage, sample);
    second.LoadOrSeed();
    reloaded := second.jobs;
  }
}
