/** The jobs of the worker, and the order in which it updates their packages. */
module PackageJobs {
  import opened Common

  datatype Status = Queued | Compressing | Failed | Completed

  /** A row of the job table; the area of its bbox is a given number. */
  class Job {
    const id: nat
    const arqId: string
    const provider: Provider
    const description: string
    const bbox: string
    const area: real
    const zipPath: string
    const userId: Option<int>
    const update: bool

    var status: Status
    var lastStarted: Option<int>
    var lastFinished: Option<int>

    constructor (id: nat, arqId: string, provider: Provider, description: string, bbox: string, area: real,
                 zipPath: string, userId: Option<int>, update: bool)
      ensures this.id == id && this.provider == provider && this.area == area && this.zipPath == zipPath
      ensures this.userId == userId && this.update == update && this.bbox == bbox
      ensures this.arqId == arqId && this.description == description
      ensures status == Queued && lastStarted == None && lastFinished == None
    {
      this.id, this.arqId, this.provider, this.description, this.bbox := id, arqId, provider, description, bbox;
      this.area, this.zipPath, this.userId, this.update := area, zipPath, userId, update;
      status, lastStarted, lastFinished := Queued, None, None;
    }
  }

  /** Puts a job before the first one that is not larger. */
  function Insert(job: Job, jobs: seq<Job>): seq<Job> {
    if |jobs| > 0 && jobs[0].area > job.area then [jobs[0]] + Insert(job, jobs[1..]) else [job] + jobs
  }

  /** `_sort_jobs`: `sorted` by area with `reverse=True`, which keeps equal elements in their order. */
  function SortJobs(jobs: seq<Job>): seq<Job> {
    if |jobs| == 0 then [] else Insert(jobs[0], SortJobs(jobs[1..]))
  }

  ghost predicate Descending(jobs: seq<Job>) {
    forall i, j | 0 <= i < j < |jobs| :: jobs[i].area >= jobs[j].area
  }

  /** The jobs of one area, in their order. */
  ghost function WithArea(jobs: seq<Job>, area: real): seq<Job> {
    if |jobs| == 0 then [] else (if jobs[0].area == area then [jobs[0]] else []) + WithArea(jobs[1..], area)
  }

  lemma {:induction false} InsertAdds(job: Job, jobs: seq<Job>)
    ensures multiset(Insert(job, jobs)) == multiset(jobs) + multiset{job}
    ensures var s := Insert(job, jobs);
            forall k | 0 <= k < |s| :: s[k] == job || s[k] in jobs
  {
    if |jobs| > 0 && jobs[0].area > job.area {
      InsertAdds(job, jobs[1..]);
      assert jobs == [jobs[0]] + jobs[1..];
    }
  }

  lemma {:induction false} InsertDescends(job: Job, jobs: seq<Job>)
    requires Descending(jobs)
    ensures Descending(Insert(job, jobs))
  {
    if |jobs| > 0 && jobs[0].area > job.area {
      var rest := Insert(job, jobs[1..]);
      InsertDescends(job, jobs[1..]);
      InsertAdds(job, jobs[1..]);
      forall k | 0 <= k < |rest| ensures jobs[0].area >= rest[k].area {
        if rest[k] != job {
          assert rest[k] in jobs[1..];
          var i :| 0 <= i < |jobs| - 1 && jobs[1..][i] == rest[k];
          assert jobs[i + 1] == rest[k];
        }
      }
    }
  }

  lemma {:induction false} InsertIsStable(job: Job, jobs: seq<Job>, area: real)
    ensures WithArea(Insert(job, jobs), area) == (if job.area == area then [job] else []) + WithArea(jobs, area)
  {
    if |jobs| > 0 && jobs[0].area > job.area {
      InsertIsStable(job, jobs[1..], area);
      assert Insert(job, jobs)[1..] == Insert(job, jobs[1..]);
    } else {
      assert ([job] + jobs)[1..] == jobs;
    }
  }

  /** The jobs are sorted by area, largest first, and those of one area stay in their order. */
  lemma {:induction false} SortJobsIsStable(jobs: seq<Job>, area: real)
    ensures Descending(SortJobs(jobs)) && multiset(SortJobs(jobs)) == multiset(jobs)
    ensures WithArea(SortJobs(jobs), area) == WithArea(jobs, area)
  {
    if |jobs| > 0 {
      SortJobsIsStable(jobs[1..], area);
      var rest := SortJobs(jobs[1..]);
      InsertAdds(jobs[0], rest);
      InsertDescends(jobs[0], rest);
      InsertIsStable(jobs[0], rest, area);
      hide Insert, Descending;
      assert jobs == [jobs[0]] + jobs[1..];
    }
  }

  lemma {:induction false} NoneLarger(jobs: seq<Job>, area: real)
    requires forall j | j in jobs :: j.area < area
    ensures WithArea(jobs, area) == []
  {
    if |jobs| > 0 { NoneLarger(jobs[1..], area); }
  }

  /** There is only one such order. */
  lemma {:induction false} StableOrderIsUnique(a: seq<Job>, b: seq<Job>)
    requires Descending(a) && Descending(b)
    requires forall area :: WithArea(a, area) == WithArea(b, area)
    ensures a == b
    decreases |a| + |b|
  {
    if |a| > 0 { assert WithArea(a, a[0].area) == WithArea(b, a[0].area); }
    if |b| > 0 { assert WithArea(b, b[0].area) == WithArea(a, b[0].area); }
    if |a| > 0 {
      FirstIsLargest(a, b);
      FirstIsLargest(b, a);
      assert WithArea(a, a[0].area)[0] == WithArea(b, a[0].area)[0];
      forall area ensures WithArea(a[1..], area) == WithArea(b[1..], area) {
        var head := if a[0].area == area then [a[0]] else [];
        assert head + WithArea(a[1..], area) == WithArea(a, area) == WithArea(b, area) == head + WithArea(b[1..], area);
        assert WithArea(a[1..], area) == WithArea(a, area)[|head|..];
      }
      StableOrderIsUnique(a[1..], b[1..]);
      assert a == [a[0]] + a[1..] && b == [b[0]] + b[1..];
    }
  }

  lemma FirstIsLargest(a: seq<Job>, b: seq<Job>)
    requires |a| > 0 && |b| > 0 && Descending(a) && Descending(b)
    requires WithArea(a, a[0].area) == WithArea(b, a[0].area)
    ensures b[0].area >= a[0].area
  {
    if b[0].area < a[0].area {
      NoneLarger(b, a[0].area);
    }
  }

  ghost predicate Distinct(jobs: seq<Job>) {
    forall i, j | 0 <= i < j < |jobs| :: jobs[i] != jobs[j]
  }

  /** Each job occurs once in the sorted list if it does so in the given one, and the same jobs occur. */
  lemma SortKeepsDistinct(jobs: seq<Job>)
    requires Distinct(jobs)
    ensures Distinct(SortJobs(jobs)) && |SortJobs(jobs)| == |jobs|
    ensures forall k | 0 <= k < |jobs| :: SortJobs(jobs)[k] in jobs
    ensures forall k | 0 <= k < |jobs| :: jobs[k] in SortJobs(jobs)
  {
    SortJobsIsStable(jobs, 0.0);
    var s := SortJobs(jobs);
    hide SortJobs;
    assert |multiset(s)| == |multiset(jobs)|;
    forall k | 0 <= k < |s| ensures s[k] in jobs {
      assert multiset(s)[s[k]] > 0;
    }
    forall k | 0 <= k < |jobs| ensures jobs[k] in s {
      assert multiset(jobs)[jobs[k]] > 0;
    }
    forall i, j | 0 <= i < j < |s| ensures s[i] != s[j] {
      if s[i] == s[j] {
        TwiceCounted(s, i, j);
        OnceCounted(jobs, s[i]);
      }
    }
  }

  lemma TwiceCounted(jobs: seq<Job>, i: nat, j: nat)
    requires i < j < |jobs| && jobs[i] == jobs[j]
    ensures multiset(jobs)[jobs[i]] >= 2
  {
    assert jobs == jobs[..j] + jobs[j..];
    assert jobs[i] in jobs[..j] && jobs[i] in jobs[j..] by {
      assert jobs[..j][i] == jobs[i] && jobs[j..][0] == jobs[j];
    }
  }

  lemma {:induction false} OnceCounted(jobs: seq<Job>, job: Job)
    requires Distinct(jobs)
    ensures multiset(jobs)[job] <= 1
  {
    if |jobs| > 0 {
      OnceCounted(jobs[1..], job);
      assert jobs == [jobs[0]] + jobs[1..];
      assert forall k | 0 <= k < |jobs| - 1 :: jobs[1..][k] == jobs[k + 1];
      assert jobs[0] !in jobs[1..];
    }
  }
}
