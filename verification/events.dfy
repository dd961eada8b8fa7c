/** Each event of the manager keeps the invariant of `Invariants`. */
module Events {
  import opened Basics
  import opened Jobs
  import opened Mirror
  import opened Manager
  import opened Invariants
  import Purge

  // ---------------------------------------------------------------------------
  // Submission

  /** Creating an empty line for an owner changes nothing the invariant reads. */
  lemma WithQueueValid(s: State, o: Owner)
    requires Valid(s)
    ensures Valid(WithQueue(s, o))
  {
    var r := WithQueue(s, o);
    assert r.savedJobs == s.savedJobs && r.mirror == s.mirror;
    forall p | p in r.userQueues
      ensures Distinct(r.userQueues[p]) && |r.userQueues[p]| <= Capacity(r.cfg)
    {
      assert r.userQueues[p] == QueueOf(s, p);
    }
    forall p, id | p in r.userQueues && id in r.userQueues[p]
      ensures id !in r.mirror && Queued(r.savedJobs[id], p)
    {
      assert r.userQueues[p] == QueueOf(s, p);
    }
    assert WaitingLine(r) == WaitingLine(s) && RunningCount(r) == RunningCount(s);
    assert forall p :: OwnerCount(r, p) == OwnerCount(s, p);
    forall p
      ensures SaturatedFor(r, p)
    {
      assert SaturatedFor(s, p);
      assert QueueOf(r, p) == QueueOf(s, p);
    }
  }

  /** A job whose id is new leaves every selection over the mirror as it was. */
  lemma EnqueueSelect(s: State, j: Job, sel: Sel)
    requires WellFormed(s) && j.jobId !in s.savedJobs
    ensures Select(Enqueue(s, j).savedJobs, s.mirror, sel) == Select(s.savedJobs, s.mirror, sel)
  {
    SelectAgree(s.savedJobs, Enqueue(s, j).savedJobs, s.mirror, sel);
  }

  lemma EnqueueQueues(s: State, j: Job)
    requires WellFormed(s) && QueuesOk(s) && LinesOk(s) && Fresh(j) && j.jobId !in s.savedJobs && Admits(s, j.userId)
    ensures QueuesOk(Enqueue(s, j)) && LinesOk(Enqueue(s, j))
  {
    var r := Enqueue(s, j);
    var o := j.userId;
    forall p, id | p in r.userQueues && id in r.userQueues[p]
      ensures id !in r.mirror && Queued(r.savedJobs[id], p)
    {
      assert r.userQueues[p] == QueueOf(r, p);
      if id != j.jobId {
        assert id in QueueOf(s, p);
      }
    }
    forall p | p in r.userQueues
      ensures Distinct(r.userQueues[p]) && |r.userQueues[p]| <= Capacity(r.cfg)
    {
      assert r.userQueues[p] == QueueOf(r, p);
      assert j.jobId !in QueueOf(s, o);
    }
  }

  lemma EnqueueMirror(s: State, j: Job)
    requires WellFormed(s) && MirrorOk(s) && CapsOk(s) && j.jobId !in s.savedJobs
    ensures MirrorOk(Enqueue(s, j)) && CapsOk(Enqueue(s, j))
    ensures forall p :: OwnerCount(Enqueue(s, j), p) == OwnerCount(s, p)
  {
    var r := Enqueue(s, j);
    forall x | x in s.mirror && x in s.savedJobs
      ensures x in r.savedJobs && r.savedJobs[x] == s.savedJobs[x]
    {
    }
    assert SameMirror(s, r);
    SameMirrorOk(s, r);
    SameMirrorCounts(s, r);
  }

  lemma EnqueueStore(s: State, j: Job)
    requires WellFormed(s) && StoreOk(s) && Fresh(j) && j.jobId !in s.savedJobs
    ensures StoreOk(Enqueue(s, j))
  {
  }

  /** Appending an admitted fresh job keeps the core invariant, and leaves the
      owner short of its share by at most the one job the dispatch may move. */
  lemma EnqueueReady(s: State, j: Job)
    requires Valid(s) && Fresh(j) && j.jobId !in s.savedJobs && Admits(s, j.userId)
    ensures Core(Enqueue(s, j)) && ReadyToDispatch(Enqueue(s, j), j.userId)
  {
    var r := Enqueue(s, j);
    var o := j.userId;
    EnqueueStore(s, j);
    EnqueueQueues(s, j);
    EnqueueMirror(s, j);
    forall p | p != o
      ensures SaturatedFor(r, p)
    {
      assert SaturatedFor(s, p);
      EnqueueSaturated(s, j, p);
    }
    assert SaturatedFor(s, o);
  }

  /** Owners other than the submitter keep their line and their count. */
  lemma EnqueueSaturated(s: State, j: Job, p: Owner)
    requires WellFormed(s) && j.jobId !in s.savedJobs && p != j.userId && SaturatedFor(s, p)
    ensures SaturatedFor(Enqueue(s, j), p)
  {
    EnqueueSelect(s, j, OwnedBy(p));
  }

  /** `submit` keeps the invariant for a freshly created job. */
  lemma SubmitValid(s: State, j: Job, now: int)
    requires Valid(s) && Fresh(j) && j.jobId !in s.savedJobs
    ensures Valid(Submit(s, j, now).state)
  {
    if ValidateJob(j) {
      var o := j.userId;
      assert j.jobId !in QueueOf(s, o);
      if Admits(s, o) {
        EnqueueReady(s, j);
        DispatchValid(Enqueue(s, j), o, now);
      } else {
        WithQueueValid(s, o);
      }
    }
  }

  // ---------------------------------------------------------------------------
  // Start

  /** What a start does to one record: the flags and expiry of the record
      after `Begin`, and nothing at all outside the waiting mirror jobs. */
  lemma StartFrame(s: State, now: int, x: JobId)
    requires WellFormed(s) && CanStart(s) && x in s.savedJobs
    ensures
      var id := WaitingLine(s)[0];
      var begun := s.savedJobs[id := Begin(s.savedJobs[id], now)];
      var r := StartNext(s, now);
      && SameFlags(r.savedJobs[x], begun[x]) && r.savedJobs[x].saveExpiredDate == begun[x].saveExpiredDate
      && (x !in s.mirror || begun[x].running ==> r.savedJobs[x] == begun[x])
  {
    var id := WaitingLine(s)[0];
    var begun := s.savedJobs[id := Begin(s.savedJobs[id], now)];
    RenumberFrame(begun, s.mirror, 1, x);
  }

  /** Renumbering changes no selection of the mirror: a start selects as
      the begun records do. */
  lemma StartSelect(s: State, now: int, sel: Sel)
    requires WellFormed(s) && CanStart(s)
    ensures
      var id := WaitingLine(s)[0];
      var begun := s.savedJobs[id := Begin(s.savedJobs[id], now)];
      Select(StartNext(s, now).savedJobs, s.mirror, sel) == Select(begun, s.mirror, sel)
  {
    var id := WaitingLine(s)[0];
    var begun := s.savedJobs[id := Begin(s.savedJobs[id], now)];
    var r := StartNext(s, now);
    forall x | x in s.mirror
      ensures Matches(r.savedJobs[x], sel) == Matches(begun[x], sel)
    {
      StartFrame(s, now, x);
    }
    SelectAgree(r.savedJobs, begun, s.mirror, sel);
  }

  lemma StartStore(s: State, now: int)
    requires WellFormed(s) && StoreOk(s) && CanStart(s)
    ensures StoreOk(StartNext(s, now))
  {
    var r := StartNext(s, now);
    forall x | x in s.savedJobs
      ensures StoreFields(r.savedJobs[x], s.savedJobs[x])
    {
      StartFrame(s, now, x);
    }
    StoreAgree(s, r);
  }

  lemma StartQueues(s: State, now: int)
    requires WellFormed(s) && LinesOk(s) && QueuesOk(s) && CanStart(s)
    ensures LinesOk(StartNext(s, now)) && QueuesOk(StartNext(s, now))
  {
    var r := StartNext(s, now);
    var id := WaitingLine(s)[0];
    assert id in WaitingLine(s);
    forall p, x | p in r.userQueues && x in r.userQueues[p]
      ensures x !in r.mirror && Queued(r.savedJobs[x], p)
    {
      assert x in s.userQueues[p];
      StartFrame(s, now, x);
    }
  }

  lemma StartRunning(s: State, now: int)
    requires WellFormed(s) && MirrorOk(s) && CanStart(s)
    ensures
      var r := StartNext(s, now);
      forall x :: x in r.mirror ==>
        && !r.savedJobs[x].complete && r.savedJobs[x].executionTime == 0
        && (r.savedJobs[x].running ==> r.savedJobs[x].position == Some(0) && r.savedJobs[x].status == "Processing")
  {
    var r := StartNext(s, now);
    var id := WaitingLine(s)[0];
    assert id in WaitingLine(s);
    forall x | x in r.mirror
      ensures !r.savedJobs[x].complete && r.savedJobs[x].executionTime == 0
      ensures r.savedJobs[x].running ==> r.savedJobs[x].position == Some(0) && r.savedJobs[x].status == "Processing"
    {
      StartFrame(s, now, x);
    }
  }

  /** The waiting jobs after a start are those before it minus the one
      that began, read from the records before renumbering. */
  lemma StartWaiting(s: State, now: int)
    requires WellFormed(s) && CanStart(s)
    ensures
      var id := WaitingLine(s)[0];
      var begun := s.savedJobs[id := Begin(s.savedJobs[id], now)];
      && StartNext(s, now).savedJobs == Renumber(begun, s.mirror, 1)
      && WaitingLine(StartNext(s, now)) == Select(begun, s.mirror, Waiting)
  {
    var id := WaitingLine(s)[0];
    var begun := s.savedJobs[id := Begin(s.savedJobs[id], now)];
    var r := StartNext(s, now);
    forall x | x in s.mirror
      ensures Matches(r.savedJobs[x], Waiting) == Matches(begun[x], Waiting)
    {
      RenumberFrame(begun, s.mirror, 1, x);
    }
    SelectAgree(r.savedJobs, begun, s.mirror, Waiting);
  }

  lemma StartDense(s: State, now: int)
    requires WellFormed(s) && CanStart(s)
    ensures DensePositions(StartNext(s, now))
  {
    StartWaiting(s, now);
    var id := WaitingLine(s)[0];
    var begun := s.savedJobs[id := Begin(s.savedJobs[id], now)];
    RenumberAllDense(begun, s.mirror, 1);
  }

  lemma StartMirror(s: State, now: int)
    requires WellFormed(s) && MirrorOk(s) && CanStart(s)
    ensures MirrorOk(StartNext(s, now))
  {
    StartRunning(s, now);
    StartDense(s, now);
  }

  /** The begun job still counts for its owner. */
  lemma StartOwner(s: State, now: int, p: Owner)
    requires WellFormed(s) && CanStart(s)
    ensures OwnerCount(StartNext(s, now), p) == OwnerCount(s, p)
  {
    var id := WaitingLine(s)[0];
    assert id in WaitingLine(s);
    StartSelect(s, now, OwnedBy(p));
    SelectUpdate(s.savedJobs, s.mirror, id, Begin(s.savedJobs[id], now), OwnedBy(p));
  }

  /** One more job runs after a start. */
  lemma StartRunningCount(s: State, now: int)
    requires WellFormed(s) && CanStart(s)
    ensures RunningCount(StartNext(s, now)) == RunningCount(s) + 1
  {
    var id := WaitingLine(s)[0];
    assert id in WaitingLine(s);
    StartSelect(s, now, Running);
    SelectFlipCount(s.savedJobs, s.mirror, id, Begin(s.savedJobs[id], now), Running);
  }

  lemma StartCaps(s: State, now: int)
    requires WellFormed(s) && CapsOk(s) && CanStart(s)
    ensures CapsOk(StartNext(s, now))
    ensures forall p :: OwnerCount(StartNext(s, now), p) == OwnerCount(s, p)
    ensures RunningCount(StartNext(s, now)) == RunningCount(s) + 1
  {
    StartRunningCount(s, now);
    forall p
      ensures OwnerCount(StartNext(s, now), p) == OwnerCount(s, p)
    {
      StartOwner(s, now, p);
    }
  }

  /** A start keeps the invariant. */
  lemma StartValid(s: State, now: int)
    requires Valid(s)
    ensures Valid(StartNext(s, now))
  {
    if CanStart(s) {
      var r := StartNext(s, now);
      StartStore(s, now);
      StartQueues(s, now);
      StartMirror(s, now);
      StartCaps(s, now);
      forall p
        ensures SaturatedFor(r, p)
      {
        assert SaturatedFor(s, p);
        StartSaturated(s, now, p);
      }
    }
  }

  lemma StartSaturated(s: State, now: int, p: Owner)
    requires WellFormed(s) && CanStart(s) && SaturatedFor(s, p)
    ensures SaturatedFor(StartNext(s, now), p)
  {
    StartOwner(s, now, p);
  }

  // ---------------------------------------------------------------------------
  // Changes the invariant does not see

  /** `k` agrees with `j` on every field the invariant reads. */
  predicate Restamped(j: Job, k: Job) {
    SameFlags(k, j) && k.position == j.position && k.status == j.status
  }

  /** `r` has the mirror of `s`, and every mirror job is still stored,
      changed in no field the invariant reads. */
  predicate SameMirror(s: State, r: State) {
    && r.cfg == s.cfg && r.mirror == s.mirror
    && (forall x :: x in s.mirror && x in s.savedJobs ==> x in r.savedJobs && Restamped(s.savedJobs[x], r.savedJobs[x]))
  }

  /** `r` has the lines and the mirror of `s`, and every job in them is still
      stored, changed in no field the invariant reads. */
  predicate SameLive(s: State, r: State) {
    && SameMirror(s, r) && r.userQueues == s.userQueues
    && (forall p, x :: p in s.userQueues && x in s.userQueues[p] && x in s.savedJobs ==>
          x in r.savedJobs && Restamped(s.savedJobs[x], r.savedJobs[x]))
  }

  lemma SameMirrorSelect(s: State, r: State, sel: Sel)
    requires WellFormed(s) && SameMirror(s, r)
    ensures Resolves(r.savedJobs, r.mirror)
    ensures Select(r.savedJobs, r.mirror, sel) == Select(s.savedJobs, s.mirror, sel)
  {
    SelectAgree(r.savedJobs, s.savedJobs, s.mirror, sel);
  }

  lemma SameLiveSelect(s: State, r: State, sel: Sel)
    requires WellFormed(s) && SameLive(s, r)
    ensures WellFormed(r)
    ensures Select(r.savedJobs, r.mirror, sel) == Select(s.savedJobs, s.mirror, sel)
  {
    SameMirrorSelect(s, r, sel);
  }

  lemma SameLiveQueues(s: State, r: State)
    requires WellFormed(s) && LinesOk(s) && QueuesOk(s) && SameLive(s, r)
    ensures WellFormed(r) && LinesOk(r) && QueuesOk(r)
  {
    SameLiveSelect(s, r, Waiting);
    forall p, x | p in r.userQueues && x in r.userQueues[p]
      ensures x !in r.mirror && Queued(r.savedJobs[x], p)
    {
    }
  }

  lemma SameMirrorOk(s: State, r: State)
    requires WellFormed(s) && WellFormed(r) && MirrorOk(s) && SameMirror(s, r)
    ensures MirrorOk(r)
  {
    SameMirrorSelect(s, r, Waiting);
    var w := WaitingLine(s);
    assert WaitingLine(r) == w;
    forall i | 0 <= i < |w|
      ensures r.savedJobs[w[i]].position == Some(i + 1) && r.savedJobs[w[i]].status == PositionStatus(i + 1)
    {
      assert w[i] in s.mirror;
    }
  }

  lemma SameMirrorCounts(s: State, r: State)
    requires WellFormed(s) && WellFormed(r) && CapsOk(s) && SameMirror(s, r)
    ensures CapsOk(r)
    ensures forall p :: OwnerCount(r, p) == OwnerCount(s, p)
  {
    SameMirrorSelect(s, r, Running);
    forall p
      ensures OwnerCount(r, p) == OwnerCount(s, p)
    {
      SameMirrorSelect(s, r, OwnedBy(p));
    }
  }

  /** Whatever keeps the lines, the mirror and the records of their jobs, and
      keeps the store consistent, keeps the invariant. */
  lemma SameLiveValid(s: State, r: State)
    requires Valid(s) && SameLive(s, r) && StoreOk(r)
    ensures Valid(r)
  {
    SameLiveQueues(s, r);
    SameMirrorOk(s, r);
    SameMirrorCounts(s, r);
    forall p
      ensures SaturatedFor(r, p)
    {
      assert SaturatedFor(s, p);
      assert QueueOf(r, p) == QueueOf(s, p);
    }
  }

  /** Replacing one record by a restamped copy keeps everything live. */
  lemma RestampSame(s: State, id: JobId, k: Job)
    requires id in s.savedJobs && Restamped(s.savedJobs[id], k)
    ensures SameLive(s, s.(savedJobs := s.savedJobs[id := k]))
  {
  }

  lemma RestampStore(s: State, id: JobId, k: Job)
    requires StoreOk(s) && id in s.savedJobs && Restamped(s.savedJobs[id], k)
    requires k.complete ==> k.saveExpiredDate.Some?
    ensures StoreOk(s.(savedJobs := s.savedJobs[id := k]))
  {
  }

  lemma RestampValid(s: State, id: JobId, k: Job)
    requires Valid(s) && id in s.savedJobs && Restamped(s.savedJobs[id], k)
    requires k.complete ==> k.saveExpiredDate.Some?
    ensures Valid(s.(savedJobs := s.savedJobs[id := k]))
  {
    var r := s.(savedJobs := s.savedJobs[id := k]);
    RestampSame(s, id, k);
    RestampStore(s, id, k);
    SameLiveValid(s, r);
  }

  /** Reading a saved job keeps the invariant. */
  lemma GetSavedJobValid(s: State, id: JobId, now: int)
    requires Valid(s)
    ensures Valid(GetSavedJob(s, id, now).0)
  {
    if id in s.savedJobs {
      RestampValid(s, id, GetSavedJob(s, id, now).1.value);
    }
  }

  /** A sweep never removes a job that waits in a line or sits in the mirror:
      none of them is complete. So the sweep keeps the invariant. */
  lemma PurgeValid(s: State, now: int)
    requires Valid(s)
    ensures Valid(PurgeJobs(s, now))
  {
    var r := PurgeJobs(s, now);
    assert SameLive(s, r);
    assert StoreOk(r);
    SameLiveValid(s, r);
  }

  // ---------------------------------------------------------------------------
  // Finish

  /** The state right after the run: the job's record holds the outcome. */
  function Ran(s: State, id: JobId, o: RunOutcome, now: int): (r: State)
    requires WellFormed(s) && id in s.savedJobs
    ensures WellFormed(r) && r.mirror == s.mirror && r.userQueues == s.userQueues && r.cfg == s.cfg
    ensures r.savedJobs == s.savedJobs[id := Execute(s.savedJobs[id], o, now)]
  {
    s.(savedJobs := s.savedJobs[id := Execute(s.savedJobs[id], o, now)])
  }

  /** Leaving the mirror takes the finished job out of every selection and
      changes no other record the selections read. */
  lemma DepartSelect(s: State, id: JobId, o: RunOutcome, now: int, sel: Sel)
    requires WellFormed(s) && CanFinish(s, id)
    ensures
      var d := Depart(Ran(s, id, o, now), id, now);
      Select(d.savedJobs, d.mirror, sel) == Remove(Select(s.savedJobs, s.mirror, sel), id)
  {
    var d := Depart(Ran(s, id, o, now), id, now);
    SelectAgree(s.savedJobs, d.savedJobs, d.mirror, sel);
    SelectRemove(s.savedJobs, s.mirror, id, sel);
  }

  lemma DepartStore(s: State, id: JobId, o: RunOutcome, now: int)
    requires WellFormed(s) && StoreOk(s) && CanFinish(s, id)
    ensures StoreOk(Depart(Ran(s, id, o, now), id, now))
  {
  }

  lemma DepartQueues(s: State, id: JobId, o: RunOutcome, now: int)
    requires WellFormed(s) && LinesOk(s) && QueuesOk(s) && CanFinish(s, id)
    ensures LinesOk(Depart(Ran(s, id, o, now), id, now)) && QueuesOk(Depart(Ran(s, id, o, now), id, now))
  {
    var d := Depart(Ran(s, id, o, now), id, now);
    forall p, x | p in d.userQueues && x in d.userQueues[p]
      ensures x !in d.mirror && Queued(d.savedJobs[x], p)
    {
      assert x !in s.mirror;
    }
  }

  /** The jobs left in the mirror keep their records. */
  lemma DepartFrame(s: State, id: JobId, o: RunOutcome, now: int, x: JobId)
    requires WellFormed(s) && CanFinish(s, id) && x in Depart(Ran(s, id, o, now), id, now).mirror
    ensures x in s.mirror && Depart(Ran(s, id, o, now), id, now).savedJobs[x] == s.savedJobs[x]
  {
  }

  lemma DepartFlags(s: State, id: JobId, o: RunOutcome, now: int)
    requires WellFormed(s) && MirrorOk(s) && CanFinish(s, id)
    ensures
      var d := Depart(Ran(s, id, o, now), id, now);
      && (forall x :: x in d.mirror ==> !d.savedJobs[x].complete && d.savedJobs[x].executionTime == 0)
      && (forall x :: x in d.mirror && d.savedJobs[x].running ==>
            d.savedJobs[x].position == Some(0) && d.savedJobs[x].status == "Processing")
  {
    var d := Depart(Ran(s, id, o, now), id, now);
    forall x | x in d.mirror
      ensures !d.savedJobs[x].complete && d.savedJobs[x].executionTime == 0
      ensures d.savedJobs[x].running ==> d.savedJobs[x].position == Some(0) && d.savedJobs[x].status == "Processing"
    {
      DepartFrame(s, id, o, now, x);
    }
  }

  lemma DepartDense(s: State, id: JobId, o: RunOutcome, now: int)
    requires WellFormed(s) && DensePositions(s) && CanFinish(s, id)
    ensures DensePositions(Depart(Ran(s, id, o, now), id, now))
    ensures WaitingLine(Depart(Ran(s, id, o, now), id, now)) == WaitingLine(s)
  {
    var d := Depart(Ran(s, id, o, now), id, now);
    DepartSelect(s, id, o, now, Waiting);
    var w := WaitingLine(s);
    assert id !in w;
    forall i | 0 <= i < |w|
      ensures d.savedJobs[w[i]].position == Some(i + 1) && d.savedJobs[w[i]].status == PositionStatus(i + 1)
    {
      assert w[i] in d.mirror;
      DepartFrame(s, id, o, now, w[i]);
    }
  }

  lemma DepartMirror(s: State, id: JobId, o: RunOutcome, now: int)
    requires WellFormed(s) && MirrorOk(s) && CanFinish(s, id)
    ensures MirrorOk(Depart(Ran(s, id, o, now), id, now))
    ensures WaitingLine(Depart(Ran(s, id, o, now), id, now)) == WaitingLine(s)
  {
    DepartFlags(s, id, o, now);
    DepartDense(s, id, o, now);
  }

  /** Leaving the mirror takes one job from its owner's count. */
  lemma DepartOwnerCount(s: State, id: JobId, o: RunOutcome, now: int, p: Owner)
    requires WellFormed(s) && CanFinish(s, id)
    ensures OwnerCount(Depart(Ran(s, id, o, now), id, now), p) ==
            OwnerCount(s, p) - (if p == s.savedJobs[id].userId then 1 else 0)
  {
    DepartSelect(s, id, o, now, OwnedBy(p));
    var sel := Select(s.savedJobs, s.mirror, OwnedBy(p));
    assert id in sel <==> p == s.savedJobs[id].userId;
  }

  lemma DepartRunning(s: State, id: JobId, o: RunOutcome, now: int)
    requires WellFormed(s) && CanFinish(s, id)
    ensures RunningCount(Depart(Ran(s, id, o, now), id, now)) <= RunningCount(s)
  {
    DepartSelect(s, id, o, now, Running);
  }

  lemma DepartCounts(s: State, id: JobId, o: RunOutcome, now: int)
    requires WellFormed(s) && CapsOk(s) && CanFinish(s, id)
    ensures
      var d := Depart(Ran(s, id, o, now), id, now);
      var owner := s.savedJobs[id].userId;
      && CapsOk(d)
      && forall p :: OwnerCount(d, p) == OwnerCount(s, p) - (if p == owner then 1 else 0)
  {
    var d := Depart(Ran(s, id, o, now), id, now);
    var owner := s.savedJobs[id].userId;
    DepartRunning(s, id, o, now);
    forall p
      ensures OwnerCount(d, p) == OwnerCount(s, p) - (if p == owner then 1 else 0)
    {
      DepartOwnerCount(s, id, o, now, p);
    }
  }

  /** After the finished job leaves the mirror its owner lacks at most one
      job, which the dispatch attempt then supplies. */
  lemma DepartReady(s: State, id: JobId, o: RunOutcome, now: int)
    requires Valid(s) && CanFinish(s, id)
    ensures Core(Depart(Ran(s, id, o, now), id, now))
    ensures ReadyToDispatch(Depart(Ran(s, id, o, now), id, now), s.savedJobs[id].userId)
  {
    var d := Depart(Ran(s, id, o, now), id, now);
    var owner := s.savedJobs[id].userId;
    DepartStore(s, id, o, now);
    DepartQueues(s, id, o, now);
    DepartMirror(s, id, o, now);
    DepartCounts(s, id, o, now);
    forall p | p != owner
      ensures SaturatedFor(d, p)
    {
      assert SaturatedFor(s, p);
      assert QueueOf(d, p) == QueueOf(s, p);
    }
    assert SaturatedFor(s, owner);
    assert QueueOf(d, owner) == QueueOf(s, owner);
  }

  /** `Finish` is the dispatch attempt after the departure, with the
      finished job's manager reference dropped. */
  lemma FinishThrough(s: State, id: JobId, o: RunOutcome, now: int)
    requires WellFormed(s) && CanFinish(s, id)
    ensures
      var t := TryDispatch(Depart(Ran(s, id, o, now), id, now), s.savedJobs[id].userId, now);
      Finish(s, id, o, now) == t.(savedJobs := t.savedJobs[id := t.savedJobs[id].(attached := false)])
  {
    assert OnJobComplete(Ran(s, id, o, now), id, now) == TryDispatch(Depart(Ran(s, id, o, now), id, now), s.savedJobs[id].userId, now);
  }

  /** A finish, successful or failed, keeps the invariant. */
  lemma FinishValid(s: State, id: JobId, o: RunOutcome, now: int)
    requires Valid(s)
    ensures Valid(Finish(s, id, o, now))
  {
    if CanFinish(s, id) {
      var d := Depart(Ran(s, id, o, now), id, now);
      DepartReady(s, id, o, now);
      DispatchValid(d, s.savedJobs[id].userId, now);
      FinishThrough(s, id, o, now);
      var t := TryDispatch(d, s.savedJobs[id].userId, now);
      assert id in t.savedJobs;
      DetachValid(t, id);
    }
  }

  /** Dropping a job's manager reference keeps the invariant. */
  lemma DetachValid(s: State, id: JobId)
    requires Valid(s) && id in s.savedJobs
    ensures Valid(s.(savedJobs := s.savedJobs[id := s.savedJobs[id].(attached := false)]))
  {
    var k := s.savedJobs[id].(attached := false);
    assert StoreOk(s);
    RestampValid(s, id, k);
  }
}
