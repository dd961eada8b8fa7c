/** Properties of whole events: each owner's jobs are served first in, first
    out; finishing does the same bookkeeping whatever the outcome; what a
    submission does in each of its cases; and the manager as an event machine
    that keeps its invariant on every trace. */
module Properties {
  import opened Basics
  import opened Jobs
  import opened Mirror
  import opened Manager
  import opened Invariants
  import opened Events

  // ---------------------------------------------------------------------------
  // First in, first out per owner

  /** Owner `o`'s jobs in the order they will be served: those in the mirror,
      in mirror order, then those still in the line. */
  function OwnerLine(s: State, o: Owner): seq<JobId>
    requires WellFormed(s)
  {
    Select(s.savedJobs, s.mirror, OwnedBy(o)) + QueueOf(s, o)
  }

  /** A dispatch adds the head, and nothing else, to its owner's mirror
      jobs. */
  lemma DispatchOwned(s: State, o: Owner, now: int, p: Owner)
    requires WellFormed(s) && HeadOwned(s, o) && Dispatches(s, o)
    ensures Select(TryDispatch(s, o, now).savedJobs, TryDispatch(s, o, now).mirror, OwnedBy(p)) ==
            Select(s.savedJobs, s.mirror, OwnedBy(p)) + (if p == o then [QueueOf(s, o)[0]] else [])
  {
    var h := QueueOf(s, o)[0];
    assert h == s.userQueues[o][0];
    assert Matches(s.savedJobs[h], OwnedBy(p)) == (p == o);
    DispatchSelect(s, o, now, OwnedBy(p));
  }

  lemma DispatchKeepsOwnLine(s: State, o: Owner, now: int)
    requires WellFormed(s) && HeadOwned(s, o) && Dispatches(s, o)
    ensures OwnerLine(TryDispatch(s, o, now), o) == OwnerLine(s, o)
  {
    var q := QueueOf(s, o);
    DispatchOwned(s, o, now, o);
    assert QueueOf(TryDispatch(s, o, now), o) == q[1..];
    ShiftHead(Select(s.savedJobs, s.mirror, OwnedBy(o)), q);
  }

  /** A dispatch attempt moves a job from the front of the line to the back
      of the mirror part: no owner's order changes. */
  lemma DispatchKeepsLine(s: State, o: Owner, now: int, p: Owner)
    requires WellFormed(s) && HeadOwned(s, o)
    ensures OwnerLine(TryDispatch(s, o, now), p) == OwnerLine(s, p)
  {
    if Dispatches(s, o) {
      if p == o {
        DispatchKeepsOwnLine(s, o, now);
      } else {
        DispatchOwned(s, o, now, p);
      }
    }
  }

  /** Replacing one record by one of the same owner changes no order. */
  lemma RecordKeepsLine(s: State, id: JobId, k: Job, p: Owner)
    requires WellFormed(s) && id in s.savedJobs && k.userId == s.savedJobs[id].userId
    ensures WellFormed(s.(savedJobs := s.savedJobs[id := k]))
    ensures OwnerLine(s.(savedJobs := s.savedJobs[id := k]), p) == OwnerLine(s, p)
  {
    SelectUpdate(s.savedJobs, s.mirror, id, k, OwnedBy(p));
  }

  /** Appending a job with a new id puts it at the end of its owner's order
      and keeps the line's head owned. */
  lemma EnqueueLine(s: State, j: Job, p: Owner)
    requires WellFormed(s) && HeadOwned(s, j.userId) && j.jobId !in s.savedJobs
    ensures HeadOwned(Enqueue(s, j), j.userId)
    ensures OwnerLine(Enqueue(s, j), p) == OwnerLine(s, p) + (if p == j.userId then [j.jobId] else [])
  {
    EnqueueHead(s, j);
    EnqueueSelect(s, j, OwnedBy(p));
  }

  /** The head of the line stays owned when a fresh job joins its back. */
  lemma EnqueueHead(s: State, j: Job)
    requires WellFormed(s) && HeadOwned(s, j.userId) && j.jobId !in s.savedJobs
    ensures HeadOwned(Enqueue(s, j), j.userId)
  {
    var r := Enqueue(s, j);
    var q := QueueOf(s, j.userId);
    if q != [] {
      assert q[0] in s.userQueues[j.userId];
      assert QueueOf(r, j.userId)[0] == q[0];
    } else {
      assert QueueOf(r, j.userId)[0] == j.jobId;
    }
  }

  /** An accepted submission puts the new job at the end of its owner's
      order; every other case changes no order. */
  lemma SubmitLine(s: State, j: Job, now: int, p: Owner)
    requires WellFormed(s) && QueuesOk(s) && j.jobId !in s.savedJobs
    ensures OwnerLine(Submit(s, j, now).state, p) ==
            OwnerLine(s, p) + (if ValidateJob(j) && Admits(s, j.userId) && p == j.userId then [j.jobId] else [])
  {
    var o := j.userId;
    if ValidateJob(j) {
      assert j.jobId !in QueueOf(s, o);
      if Admits(s, o) {
        QueuedHeadOwned(s, o);
        EnqueueLine(s, j, p);
        DispatchKeepsLine(Enqueue(s, j), o, now, p);
      } else {
        assert QueueOf(WithQueue(s, o), p) == QueueOf(s, p);
      }
    }
  }

  /** Starting a job changes no owner's order. */
  lemma StartLine(s: State, now: int, p: Owner)
    requires Valid(s)
    ensures OwnerLine(StartNext(s, now), p) == OwnerLine(s, p)
  {
    if CanStart(s) {
      StartSelect(s, now, OwnedBy(p));
      var id := WaitingLine(s)[0];
      SelectUpdate(s.savedJobs, s.mirror, id, Begin(s.savedJobs[id], now), OwnedBy(p));
    }
  }

  /** Leaving the mirror removes the finished job from its owner's order. */
  lemma DepartLine(s: State, id: JobId, o: RunOutcome, now: int, p: Owner)
    requires WellFormed(s) && QueuesOk(s) && CanFinish(s, id)
    ensures OwnerLine(Depart(Ran(s, id, o, now), id, now), p) == Remove(OwnerLine(s, p), id)
    ensures HeadOwned(Depart(Ran(s, id, o, now), id, now), s.savedJobs[id].userId)
  {
    var d := Depart(Ran(s, id, o, now), id, now);
    var owner := s.savedJobs[id].userId;
    DepartSelect(s, id, o, now, OwnedBy(p));
    assert id !in QueueOf(s, p);
    RemoveConcat(Select(s.savedJobs, s.mirror, OwnedBy(p)), QueueOf(s, p), id);
    QueuedHeadOwned(s, owner);
    if owner in s.userQueues && s.userQueues[owner] != [] {
      assert s.userQueues[owner][0] in s.userQueues[owner];
    }
  }

  /** Finishing a job removes it from its owner's order and changes nothing
      else in any order. */
  lemma FinishLine(s: State, id: JobId, o: RunOutcome, now: int, p: Owner)
    requires WellFormed(s) && QueuesOk(s)
    ensures OwnerLine(Finish(s, id, o, now), p) == if CanFinish(s, id) then Remove(OwnerLine(s, p), id) else OwnerLine(s, p)
  {
    if CanFinish(s, id) {
      var ran := Ran(s, id, o, now);
      var d := Depart(ran, id, now);
      var owner := s.savedJobs[id].userId;
      DepartLine(s, id, o, now, p);
      DispatchKeepsLine(d, owner, now, p);
      var done := OnJobComplete(ran, id, now);
      assert done == TryDispatch(d, owner, now);
      RecordKeepsLine(done, id, done.savedJobs[id].(attached := false), p);
    }
  }

  /** Reading a saved job changes no owner's order. */
  lemma ReadKeepsLine(s: State, id: JobId, now: int, p: Owner)
    requires WellFormed(s)
    ensures OwnerLine(GetSavedJob(s, id, now).0, p) == OwnerLine(s, p)
  {
    if id in s.savedJobs {
      RecordKeepsLine(s, id, GetSavedJob(s, id, now).1.value, p);
    }
  }

  /** Sweeping changes no owner's order. */
  lemma PurgeKeepsLine(s: State, now: int, p: Owner)
    requires Valid(s)
    ensures OwnerLine(PurgeJobs(s, now), p) == OwnerLine(s, p)
  {
    var t := PurgeJobs(s, now);
    assert SameLive(s, t);
    SameLiveSelect(s, t, OwnedBy(p));
  }

  // ---------------------------------------------------------------------------
  // Finishing does not depend on the outcome

  /** Two states that differ only in the record of job `x`, which is in
      neither the mirror nor owner `o`'s line. */
  predicate Twins(a: State, b: State, x: JobId, o: Owner) {
    && WellFormed(a) && WellFormed(b)
    && a.cfg == b.cfg && a.userQueues == b.userQueues && a.mirror == b.mirror
    && a.savedJobs.Keys == b.savedJobs.Keys && x in a.savedJobs
    && x !in a.mirror && x !in QueueOf(a, o) && HeadOwned(a, o)
    && forall y :: y in a.savedJobs && y != x ==> a.savedJobs[y] == b.savedJobs[y]
  }

  lemma TwinsWaiting(a: State, b: State, x: JobId, o: Owner, now: int)
    requires Twins(a, b, x, o)
    ensures Dispatches(a, o) == Dispatches(b, o)
    ensures Dispatches(a, o) ==> WaitingLine(TryDispatch(a, o, now)) == WaitingLine(TryDispatch(b, o, now))
  {
    SelectAgree(a.savedJobs, b.savedJobs, a.mirror, OwnedBy(o));
    if Dispatches(a, o) {
      var h := QueueOf(a, o)[0];
      assert h in a.userQueues[o] && h != x;
      assert HeadOwned(b, o);
      SelectAgree(a.savedJobs, b.savedJobs, a.mirror, Waiting);
      DispatchSelect(a, o, now, Waiting);
      DispatchSelect(b, o, now, Waiting);
    }
  }

  /** Twin states dispatch alike: the same mirror, lines and records apart
      from `x`, whose record the dispatch does not touch. */
  lemma DispatchAgree(a: State, b: State, x: JobId, o: Owner, now: int)
    requires Twins(a, b, x, o)
    ensures
      var ra, rb := TryDispatch(a, o, now), TryDispatch(b, o, now);
      && ra.mirror == rb.mirror && ra.userQueues == rb.userQueues
      && ra.savedJobs[x] == a.savedJobs[x] && rb.savedJobs[x] == b.savedJobs[x]
      && forall y :: y in a.savedJobs && y != x ==> ra.savedJobs[y] == rb.savedJobs[y]
  {
    TwinsWaiting(a, b, x, o, now);
    if Dispatches(a, o) {
      var h := QueueOf(a, o)[0];
      var ra, rb := TryDispatch(a, o, now), TryDispatch(b, o, now);
      assert h in a.userQueues[o] && h != x;
      DispatchFrame(a, o, now, x);
      DispatchFrame(b, o, now, x);
      forall y | y in a.savedJobs && y != x
        ensures ra.savedJobs[y] == rb.savedJobs[y]
      {
        if y != h {
          DispatchFrame(a, o, now, y);
          DispatchFrame(b, o, now, y);
        }
      }
    }
  }

  /** The states two outcomes leave right after the job leaves the mirror
      are twins. */
  lemma DepartTwins(s: State, id: JobId, o1: RunOutcome, o2: RunOutcome, now: int)
    requires WellFormed(s) && QueuesOk(s) && CanFinish(s, id)
    ensures Twins(Depart(Ran(s, id, o1, now), id, now), Depart(Ran(s, id, o2, now), id, now), id, s.savedJobs[id].userId)
  {
    var owner := s.savedJobs[id].userId;
    var d1 := Depart(Ran(s, id, o1, now), id, now);
    var d2 := Depart(Ran(s, id, o2, now), id, now);
    DepartLine(s, id, o1, now, owner);
    assert id !in QueueOf(s, owner);
    assert d1.mirror == d2.mirror && d1.userQueues == d2.userQueues && d1.cfg == d2.cfg;
    forall y | y in d1.savedJobs && y != id
      ensures d1.savedJobs[y] == d2.savedJobs[y]
    {
      assert d1.savedJobs[y] == s.savedJobs[y] == d2.savedJobs[y];
    }
  }

  /** `onJobComplete` does the same steps whether the job succeeded or failed:
      the same mirror and lines afterwards, the same records for every other
      job, and for the finished job an expiry stamp, no position and no
      manager reference. */
  lemma FinishBookkeeping(s: State, id: JobId, o1: RunOutcome, o2: RunOutcome, now: int)
    requires WellFormed(s) && QueuesOk(s) && CanFinish(s, id)
    ensures
      var r1, r2 := Finish(s, id, o1, now), Finish(s, id, o2, now);
      && r1.mirror == r2.mirror && r1.userQueues == r2.userQueues
      && (forall y :: y in s.savedJobs && y != id ==> r1.savedJobs[y] == r2.savedJobs[y])
      && id !in r1.mirror
      && r1.savedJobs[id] == Execute(s.savedJobs[id], o1, now).(saveExpiredDate := Some(Expiry(s.cfg, now)), position := None, attached := false)
      && r2.savedJobs[id] == Execute(s.savedJobs[id], o2, now).(saveExpiredDate := Some(Expiry(s.cfg, now)), position := None, attached := false)
  {
    var owner := s.savedJobs[id].userId;
    var d1 := Depart(Ran(s, id, o1, now), id, now);
    var d2 := Depart(Ran(s, id, o2, now), id, now);
    DepartTwins(s, id, o1, o2, now);
    DispatchAgree(d1, d2, id, owner, now);
    FinishThrough(s, id, o1, now);
    FinishThrough(s, id, o2, now);
    FinishRecord(s, id, o1, now);
    FinishRecord(s, id, o2, now);
  }

  /** The finished job leaves the mirror with an expiry stamp, no position
      and no manager reference. */
  lemma FinishRecord(s: State, id: JobId, o: RunOutcome, now: int)
    requires WellFormed(s) && QueuesOk(s) && CanFinish(s, id)
    ensures id !in Finish(s, id, o, now).mirror
    ensures Finish(s, id, o, now).savedJobs[id] ==
      Execute(s.savedJobs[id], o, now).(saveExpiredDate := Some(Expiry(s.cfg, now)), position := None, attached := false)
  {
    assert id !in QueueOf(s, s.savedJobs[id].userId);
  }

  /** A job of a valid manager that fails before the program runs reports
      "Failed after 0s": nothing records an execution time before a run. */
  lemma FinishEarlyFailureReportsZero(s: State, id: JobId, o: RunOutcome, now: int)
    requires Valid(s) && CanFinish(s, id) && !o.inputsWritten
    ensures Finish(s, id, o, now).savedJobs[id].status == FailedStatus(0)
    ensures Finish(s, id, o, now).savedJobs[id].failed && Finish(s, id, o, now).savedJobs[id].complete
  {
    assert id !in QueueOf(s, s.savedJobs[id].userId);
    assert s.savedJobs[id].executionTime == 0;
  }

  // ---------------------------------------------------------------------------
  // Submission, case by case

  /** A line holding more than `userJobLimit` jobs drops the submission: the
      job is neither queued nor saved, and the caller still gets "". */
  lemma SubmitDropsWhenFull(s: State, j: Job, now: int)
    requires WellFormed(s) && ValidateJob(j) && !Admits(s, j.userId)
    ensures Submit(s, j, now).message == ""
    ensures Submit(s, j, now).state.savedJobs == s.savedJobs && Submit(s, j, now).state.mirror == s.mirror
    ensures forall p :: QueueOf(Submit(s, j, now).state, p) == QueueOf(s, p)
  {
  }

  /** A line with exactly `userJobLimit` jobs still admits one more, so a
      line can reach `userJobLimit + 1` jobs. */
  lemma LineCanExceedLimit(s: State, j: Job, now: int)
    requires Valid(s) && Fresh(j) && j.jobId !in s.savedJobs && ValidateJob(j)
    requires |QueueOf(s, j.userId)| == s.cfg.userJobLimit && QueueOf(s, j.userId) != []
    ensures |QueueOf(Submit(s, j, now).state, j.userId)| == s.cfg.userJobLimit + 1
  {
    var o := j.userId;
    assert SaturatedFor(s, o);
    EnqueueReady(s, j);
    assert !Dispatches(Enqueue(s, j), o) by {
      EnqueueMirror(s, j);
    }
  }

  /** An accepted job is saved under its id, joins the end of its owner's
      order, and is either still waiting in the line as "Pending" or has
      entered the mirror. */
  lemma SubmitAccepted(s: State, j: Job, now: int)
    requires Valid(s) && Fresh(j) && j.jobId !in s.savedJobs
    requires ValidateJob(j) && Admits(s, j.userId)
    ensures Submit(s, j, now).message == ""
    ensures j.jobId in Submit(s, j, now).state.savedJobs && Submit(s, j, now).state.savedJobs[j.jobId].saved
    ensures OwnerLine(Submit(s, j, now).state, j.userId) == OwnerLine(s, j.userId) + [j.jobId]
    ensures var r := Submit(s, j, now).state;
      j.jobId in r.mirror || (j.jobId in QueueOf(r, j.userId) && r.savedJobs[j.jobId].status == "Pending")
  {
    SubmitLine(s, j, now, j.userId);
    SubmitValid(s, j, now);
    var r := Submit(s, j, now).state;
    var o := j.userId;
    assert j.jobId in OwnerLine(r, o);
    if j.jobId !in r.mirror {
      assert j.jobId in QueueOf(r, o);
      assert o in r.userQueues && j.jobId in r.userQueues[o];
    }
  }

  /** Reading an unknown id returns nothing and changes nothing; reading a
      known one with a retention between 597 and 1193 hours stamps an expiry
      in the past, because the product overflows `int`. */
  lemma GetSavedJobCases(s: State, id: JobId, now: int)
    ensures id !in s.savedJobs ==> GetSavedJob(s, id, now) == (s, None)
    ensures id in s.savedJobs && 0 <= s.cfg.purgeAfterHours <= 596 ==>
      GetSavedJob(s, id, now).1.value.saveExpiredDate == Some(now + s.cfg.purgeAfterHours * 3_600_000)
    ensures id in s.savedJobs && 597 <= s.cfg.purgeAfterHours <= 1193 ==>
      GetSavedJob(s, id, now).1.value.saveExpiredDate.value < now
  {
  }

  // ---------------------------------------------------------------------------
  // The event machine

  datatype Event =
    | Submitted(job: Job)
    | Started
    | Finished(id: JobId, outcome: RunOutcome)
    | Read(id: JobId)
    | Swept

  /** A submitted job comes from `createJob`: it is fresh and its id is new. */
  predicate Enabled(s: State, e: Event) {
    e.Submitted? ==> Fresh(e.job) && e.job.jobId !in s.savedJobs
  }

  function Step(s: State, e: Event, now: int): (r: State)
    requires Valid(s) && Enabled(s, e)
    ensures Valid(r) && r.cfg == s.cfg
  {
    match e
    case Submitted(j) => SubmitValid(s, j, now); Submit(s, j, now).state
    case Started => StartValid(s, now); StartNext(s, now)
    case Finished(id, o) => FinishValid(s, id, o, now); Finish(s, id, o, now)
    case Read(id) => GetSavedJobValid(s, id, now); GetSavedJob(s, id, now).0
    case Swept => PurgeValid(s, now); PurgeJobs(s, now)
  }

  /** Running a trace of timed events from a valid state, skipping events that
      are not enabled, ends in a valid state. */
  function Run(s: State, trace: seq<(Event, int)>): (r: State)
    requires Valid(s)
    ensures Valid(r) && r.cfg == s.cfg
    decreases |trace|
  {
    if trace == [] then s
    else
      var (e, now) := trace[0];
      var next := if Enabled(s, e) then Step(s, e, now) else s;
      Run(next, trace[1..])
  }

  /** Every state reachable from the empty manager satisfies the invariant:
      in particular no owner ever has more than `userProcessLimit` jobs in
      the mirror and no more than `concurrentJobs` jobs run. */
  lemma ReachableValid(cfg: Config, trace: seq<(Event, int)>)
    requires ConfigOk(cfg)
    ensures Valid(Run(Init(cfg), trace))
    ensures forall o :: OwnerCount(Run(Init(cfg), trace), o) <= cfg.userProcessLimit
    ensures RunningCount(Run(Init(cfg), trace)) <= cfg.concurrentJobs
  {
    InitValid(cfg);
  }
}
