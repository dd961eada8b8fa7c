/** The periodic sweeper (`PurgeOldJobs.run`) over the saved-job map: an
    entry leaves the map once its job is complete and the clock has passed the
    entry's expiry stamp. */
module Purge {
  import opened Basics
  import opened Jobs

  /** The sweep reads the expiry stamp of complete jobs only (the `&&` in the
      source short-circuits); a complete job without a stamp would make the
      unboxing of the null `Long` throw. */
  predicate StampedWhenComplete(m: map<JobId, Job>) {
    forall id :: id in m && m[id].complete ==> m[id].saveExpiredDate.Some?
  }

  /** The eviction test: complete, and strictly past the expiry stamp. */
  predicate Expired(j: Job, now: int): (e: bool)
    requires j.complete ==> j.saveExpiredDate.Some?
    ensures e ==> j.complete && j.saveExpiredDate.Some?
    ensures j.saveExpiredDate.Some? && now <= j.saveExpiredDate.value ==> !e
    ensures j.complete && now > j.saveExpiredDate.value ==> e
  {
    j.complete && now > j.saveExpiredDate.value
  }

  /** The job as the sweep leaves it once it has been dropped from the map. */
  function Evict(j: Job): (r: Job)
    ensures !r.saved && r.saveExpiredDate == None
    ensures SameSubmission(r, j) && r.complete == j.complete && r.status == j.status
    ensures r.(saved := j.saved, saveExpiredDate := j.saveExpiredDate) == j
  {
    j.(saved := false, saveExpiredDate := None)
  }

  /** The saved-job map after one sweep. */
  function Sweep(m: map<JobId, Job>, now: int): (r: map<JobId, Job>)
    requires StampedWhenComplete(m)
    ensures forall id :: id in r <==> id in m && !Expired(m[id], now)
    ensures forall id :: id in r ==> r[id] == m[id]
    ensures StampedWhenComplete(r)
  {
    map id | id in m && !Expired(m[id], now) :: m[id]
  }

  /** The sweep part-way through: the ids of `pending` are not visited yet;
      every visited expired entry has moved from `kept` to `evicted`. */
  ghost predicate SweptExcept(m: map<JobId, Job>, now: int, pending: set<JobId>, kept: map<JobId, Job>, evicted: map<JobId, Job>)
    requires StampedWhenComplete(m)
  {
    && pending <= m.Keys
    && (forall id :: id in kept <==> id in m && (id in pending || !Expired(m[id], now)))
    && (forall id :: id in kept ==> kept[id] == m[id])
    && (forall id :: id in evicted <==> id in m && id !in pending && Expired(m[id], now))
    && (forall id :: id in evicted ==> evicted[id] == Evict(m[id]))
  }

  /** Visiting one pending entry keeps the sweep consistent. */
  lemma SweepStep(m: map<JobId, Job>, now: int, pending: set<JobId>, kept: map<JobId, Job>, evicted: map<JobId, Job>, id: JobId)
    requires StampedWhenComplete(m) && SweptExcept(m, now, pending, kept, evicted) && id in pending
    ensures Expired(m[id], now) ==> SweptExcept(m, now, pending - {id}, kept - {id}, evicted[id := Evict(m[id])])
    ensures !Expired(m[id], now) ==> SweptExcept(m, now, pending - {id}, kept, evicted)
  {
  }

  /** `run()`: one pass of the entry-set iterator, removing expired entries as
      it meets them. Besides the surviving map it returns the state each
      evicted job was left in. */
  method PurgeOldJobs(m: map<JobId, Job>, now: int) returns (kept: map<JobId, Job>, evicted: map<JobId, Job>)
    requires StampedWhenComplete(m)
    ensures forall id :: id in kept <==> id in m && !Expired(m[id], now)
    ensures forall id :: id in kept ==> kept[id] == m[id]
    ensures forall id :: id in evicted <==> id in m && Expired(m[id], now)
    ensures forall id :: id in evicted ==> evicted[id] == Evict(m[id])
    ensures kept == Sweep(m, now)
  {
    kept := m;
    evicted := map[];
    var unvisited := m.Keys;
    while unvisited != {}
      invariant SweptExcept(m, now, unvisited, kept, evicted)
      decreases |unvisited|
    {
      var id :| id in unvisited;
      var job := m[id];
      SweepStep(m, now, unvisited, kept, evicted, id);
      if job.complete && now > job.saveExpiredDate.value {
        evicted := evicted[id := Evict(job)];
        kept := kept - {id};
      }
      unvisited := unvisited - {id};
    }
    SweepUnique(m, now, kept);
  }

  /** The sweep's result is the only map that keeps exactly the unexpired
      entries unchanged. */
  lemma SweepUnique(m: map<JobId, Job>, now: int, kept: map<JobId, Job>)
    requires StampedWhenComplete(m)
    requires forall id :: id in kept <==> id in m && !Expired(m[id], now)
    requires forall id :: id in kept ==> kept[id] == m[id]
    ensures kept == Sweep(m, now)
  {
    assert kept.Keys == Sweep(m, now).Keys;
  }

  /** A second sweep at the same instant finds nothing left to remove. */
  lemma SweepIdempotent(m: map<JobId, Job>, now: int)
    requires StampedWhenComplete(m)
    ensures Sweep(Sweep(m, now), now) == Sweep(m, now)
  {
    var once := Sweep(m, now);
    var twice := Sweep(once, now);
    assert twice.Keys == once.Keys;
  }

  /** A job that is not complete survives whatever its stamp; a complete job
      whose stamp equals the current time survives too (the test is strict). */
  lemma SweepKeeps(m: map<JobId, Job>, now: int, id: JobId)
    requires StampedWhenComplete(m) && id in m
    requires !m[id].complete || m[id].saveExpiredDate == Some(now)
    ensures id in Sweep(m, now) && Sweep(m, now)[id] == m[id]
  {
  }

  /** A sweep at a later time removes at least what an earlier one removes. */
  lemma SweepMonotone(m: map<JobId, Job>, earlier: int, later: int)
    requires StampedWhenComplete(m) && earlier <= later
    ensures Sweep(m, later).Keys <= Sweep(m, earlier).Keys
  {
  }
}
