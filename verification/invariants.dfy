/** What the manager keeps true between events, and why dispatching a job
    from an owner's line keeps it true. */
module Invariants {
  import opened Basics
  import opened Jobs
  import opened Mirror
  import opened Manager
  import Purge

  /** Most jobs a line can hold: the check `size() > userJobLimit` lets a
      line grow to `userJobLimit + 1`. */
  function Capacity(c: Config): nat {
    if c.userJobLimit < 0 then 0 else c.userJobLimit + 1
  }

  /** Saved jobs are stored under their own id and marked saved, and a
      complete job carries an expiry stamp. */
  predicate StoreOk(s: State) {
    && (forall id :: id in s.savedJobs ==> s.savedJobs[id].jobId == id && s.savedJobs[id].saved)
    && Purge.StampedWhenComplete(s.savedJobs)
  }

  /** The fields of a record the store invariant reads. */
  predicate StoreFields(j: Job, k: Job) {
    j.jobId == k.jobId && j.saved == k.saved && j.complete == k.complete && j.saveExpiredDate == k.saveExpiredDate
  }

  /** The store invariant reads nothing but the flags and expiry stamps of
      the records, so two stores that agree on those agree on it. */
  lemma StoreAgree(s: State, r: State)
    requires StoreOk(s) && r.savedJobs.Keys == s.savedJobs.Keys
    requires forall x :: x in s.savedJobs ==> StoreFields(r.savedJobs[x], s.savedJobs[x])
    ensures StoreOk(r)
  {
  }

  /** Each line holds a job once and no more than its capacity. */
  predicate LinesOk(s: State) {
    forall o :: o in s.userQueues ==> Distinct(s.userQueues[o]) && |s.userQueues[o]| <= Capacity(s.cfg)
  }

  /** A job waiting in owner `o`'s line. */
  predicate Queued(j: Job, o: Owner) {
    j.userId == o && !j.running && !j.complete && j.position == None && j.status == "Pending" && j.executionTime == 0
  }

  /** Line jobs belong to the line's owner, wait with status "Pending", no
      position and no execution time, and are not in the mirror. */
  predicate QueuesOk(s: State)
    requires WellFormed(s)
  {
    forall o, id :: o in s.userQueues && id in s.userQueues[o] ==> id !in s.mirror && Queued(s.savedJobs[id], o)
  }

  /** The i-th waiting mirror job shows position i + 1. */
  predicate DensePositions(s: State)
    requires WellFormed(s)
  {
    var w := WaitingLine(s);
    forall i :: 0 <= i < |w| ==> s.savedJobs[w[i]].position == Some(i + 1) && s.savedJobs[w[i]].status == PositionStatus(i + 1)
  }

  /** Mirror jobs are unfinished and have no execution time recorded yet;
      running ones show position 0 and "Processing"; waiting ones are
      numbered densely. */
  predicate MirrorOk(s: State)
    requires WellFormed(s)
  {
    && (forall id :: id in s.mirror ==> !s.savedJobs[id].complete && s.savedJobs[id].executionTime == 0)
    && (forall id :: id in s.mirror && s.savedJobs[id].running ==>
          s.savedJobs[id].position == Some(0) && s.savedJobs[id].status == "Processing")
    && DensePositions(s)
  }

  /** No more jobs run than the pool has threads, and no owner has more jobs
      in the mirror than `userProcessLimit`. */
  ghost predicate CapsOk(s: State)
    requires WellFormed(s)
  {
    && RunningCount(s) <= s.cfg.concurrentJobs
    && forall o :: OwnerCount(s, o) <= s.cfg.userProcessLimit
  }

  ghost predicate Core(s: State) {
    ConfigOk(s.cfg) && WellFormed(s) && StoreOk(s) && LinesOk(s) && QueuesOk(s) && MirrorOk(s) && CapsOk(s)
  }

  /** An owner whose line is not empty has its full share of the mirror: no
      job waits in a line that could have been dispatched. */
  predicate SaturatedFor(s: State, o: Owner)
    requires WellFormed(s)
  {
    QueueOf(s, o) != [] ==> OwnerCount(s, o) >= s.cfg.userProcessLimit
  }

  ghost predicate Valid(s: State) {
    Core(s) && forall o :: SaturatedFor(s, o)
  }

  lemma InitValid(cfg: Config)
    requires ConfigOk(cfg)
    ensures Valid(Init(cfg))
  {
  }

  // ---------------------------------------------------------------------------
  // Dispatch

  lemma DistinctTail(q: seq<JobId>)
    requires Distinct(q) && q != []
    ensures Distinct(q[1..]) && q[0] !in q[1..]
  {
  }

  /** The head of owner `o`'s line, if any, is one of `o`'s jobs and is not
      in the mirror. */
  predicate HeadOwned(s: State, o: Owner)
    requires WellFormed(s)
  {
    o in s.userQueues && s.userQueues[o] != [] ==>
      s.userQueues[o][0] !in s.mirror && s.savedJobs[s.userQueues[o][0]].userId == o
  }

  lemma QueuedHeadOwned(s: State, o: Owner)
    requires WellFormed(s) && QueuesOk(s)
    ensures HeadOwned(s, o)
  {
    if o in s.userQueues && s.userQueues[o] != [] {
      assert s.userQueues[o][0] in s.userQueues[o];
    }
  }

  /** The dispatched head joins the end of the mirror and of every selection
      its record matches; no other selection changes. */
  lemma DispatchSelect(s: State, o: Owner, now: int, sel: Sel)
    requires WellFormed(s) && HeadOwned(s, o) && Dispatches(s, o)
    ensures
      var h := QueueOf(s, o)[0];
      var r := TryDispatch(s, o, now);
      && r.mirror == s.mirror + [h]
      && Select(r.savedJobs, r.mirror, sel) == Select(s.savedJobs, s.mirror, sel) + (if Matches(s.savedJobs[h], sel) then [h] else [])
  {
    var h := QueueOf(s, o)[0];
    var r := TryDispatch(s, o, now);
    assert h in s.userQueues[o];
    assert r.mirror == s.mirror + [h];
    SelectAgree(s.savedJobs, r.savedJobs, s.mirror, sel);
    SelectAppend(r.savedJobs, s.mirror, h, sel);
  }

  /** The dispatched head is a queued job of the owner, outside the mirror. */
  lemma DispatchHead(s: State, o: Owner, now: int)
    requires WellFormed(s) && QueuesOk(s) && Dispatches(s, o)
    ensures
      var h := QueueOf(s, o)[0];
      && o in s.userQueues && h in s.userQueues[o] && h in s.savedJobs && h !in s.mirror && Queued(s.savedJobs[h], o)
      && TryDispatch(s, o, now).mirror == s.mirror + [h]
  {
    assert QueueOf(s, o)[0] in s.userQueues[o];
  }

  /** A dispatch changes no record in a field the store invariant reads. */
  lemma DispatchRecord(s: State, o: Owner, now: int, x: JobId)
    requires WellFormed(s) && Dispatches(s, o) && x in s.savedJobs
    ensures SameFlags(TryDispatch(s, o, now).savedJobs[x], s.savedJobs[x])
    ensures TryDispatch(s, o, now).savedJobs[x].saveExpiredDate == s.savedJobs[x].saveExpiredDate
  {
  }

  lemma DispatchStore(s: State, o: Owner, now: int)
    requires WellFormed(s) && StoreOk(s) && Dispatches(s, o)
    ensures StoreOk(TryDispatch(s, o, now))
  {
    var r := TryDispatch(s, o, now);
    forall x | x in s.savedJobs
      ensures StoreFields(r.savedJobs[x], s.savedJobs[x])
    {
      DispatchRecord(s, o, now, x);
    }
    StoreAgree(s, r);
  }

  lemma DispatchLines(s: State, o: Owner, now: int)
    requires WellFormed(s) && LinesOk(s) && QueuesOk(s) && Dispatches(s, o)
    ensures LinesOk(TryDispatch(s, o, now))
  {
    DispatchHead(s, o, now);
    DistinctTail(s.userQueues[o]);
  }

  lemma DispatchQueues(s: State, o: Owner, now: int)
    requires WellFormed(s) && LinesOk(s) && QueuesOk(s) && Dispatches(s, o)
    ensures QueuesOk(TryDispatch(s, o, now))
  {
    DispatchHead(s, o, now);
    var q := s.userQueues[o];
    var r := TryDispatch(s, o, now);
    DistinctTail(q);
    forall p, id | p in r.userQueues && id in r.userQueues[p]
      ensures id !in r.mirror && Queued(r.savedJobs[id], p)
    {
      if p == o {
        assert id in q[1..];
      }
      assert id in s.userQueues[p];
    }
  }

  /** The head enters the mirror unfinished and not running. */
  lemma DispatchFlags(s: State, o: Owner, now: int)
    requires WellFormed(s) && QueuesOk(s) && MirrorOk(s) && Dispatches(s, o)
    ensures
      var r := TryDispatch(s, o, now);
      && (forall id :: id in r.mirror ==> !r.savedJobs[id].complete && r.savedJobs[id].executionTime == 0)
      && (forall id :: id in r.mirror && r.savedJobs[id].running ==>
            r.savedJobs[id].position == Some(0) && r.savedJobs[id].status == "Processing")
  {
    DispatchHead(s, o, now);
    var h := QueueOf(s, o)[0];
    var r := TryDispatch(s, o, now);
    forall id | id in r.mirror
      ensures !r.savedJobs[id].complete && r.savedJobs[id].executionTime == 0
      ensures r.savedJobs[id].running ==> r.savedJobs[id].position == Some(0) && r.savedJobs[id].status == "Processing"
    {
      if id != h {
        assert id in s.mirror;
      }
    }
  }

  /** The head is numbered after the waiting jobs already in the mirror. */
  lemma DispatchNumbered(s: State, o: Owner, now: int)
    requires WellFormed(s) && QueuesOk(s) && Dispatches(s, o)
    ensures
      var h := QueueOf(s, o)[0];
      var r := TryDispatch(s, o, now);
      var n := |WaitingLine(s)| + 1;
      && WaitingLine(r) == WaitingLine(s) + [h]
      && r.savedJobs[h].position == Some(n) && r.savedJobs[h].status == PositionStatus(n)
  {
    DispatchHead(s, o, now);
    QueuedHeadOwned(s, o);
    DispatchSelect(s, o, now, Waiting);
  }

  /** A dispatch leaves every record but the head's alone. */
  lemma DispatchFrame(s: State, o: Owner, now: int, x: JobId)
    requires WellFormed(s) && Dispatches(s, o) && x in s.savedJobs && x != QueueOf(s, o)[0]
    ensures TryDispatch(s, o, now).savedJobs[x] == s.savedJobs[x]
  {
  }

  lemma DispatchDense(s: State, o: Owner, now: int)
    requires WellFormed(s) && QueuesOk(s) && DensePositions(s) && Dispatches(s, o)
    ensures DensePositions(TryDispatch(s, o, now))
  {
    DispatchHead(s, o, now);
    DispatchNumbered(s, o, now);
    var h := QueueOf(s, o)[0];
    var r := TryDispatch(s, o, now);
    var w := WaitingLine(s);
    forall i | 0 <= i < |w|
      ensures r.savedJobs[w[i]] == s.savedJobs[w[i]]
    {
      assert w[i] in s.mirror;
      DispatchFrame(s, o, now, w[i]);
    }
    DenseAppend(r.savedJobs, w, h);
  }

  /** Numbering one more id after a densely numbered sequence keeps it dense. */
  lemma DenseAppend(m: map<JobId, Job>, w: seq<JobId>, h: JobId)
    requires Resolves(m, w) && h in m
    requires forall i :: 0 <= i < |w| ==> m[w[i]].position == Some(i + 1) && m[w[i]].status == PositionStatus(i + 1)
    requires m[h].position == Some(|w| + 1) && m[h].status == PositionStatus(|w| + 1)
    ensures forall i :: 0 <= i < |w + [h]| ==>
      m[(w + [h])[i]].position == Some(i + 1) && m[(w + [h])[i]].status == PositionStatus(i + 1)
  {
  }

  lemma DispatchMirror(s: State, o: Owner, now: int)
    requires WellFormed(s) && QueuesOk(s) && MirrorOk(s) && Dispatches(s, o)
    ensures MirrorOk(TryDispatch(s, o, now))
  {
    DispatchFlags(s, o, now);
    DispatchDense(s, o, now);
  }

  /** The dispatched head counts for its owner and for nobody else. */
  lemma DispatchOwners(s: State, o: Owner, now: int)
    requires WellFormed(s) && QueuesOk(s) && Dispatches(s, o)
    ensures forall p :: OwnerCount(TryDispatch(s, o, now), p) == OwnerCount(s, p) + (if p == o then 1 else 0)
  {
    QueuedHeadOwned(s, o);
    var r := TryDispatch(s, o, now);
    forall p
      ensures OwnerCount(r, p) == OwnerCount(s, p) + (if p == o then 1 else 0)
    {
      DispatchSelect(s, o, now, OwnedBy(p));
    }
  }

  lemma DispatchCaps(s: State, o: Owner, now: int)
    requires WellFormed(s) && QueuesOk(s) && CapsOk(s) && Dispatches(s, o)
    ensures CapsOk(TryDispatch(s, o, now))
  {
    DispatchHead(s, o, now);
    QueuedHeadOwned(s, o);
    DispatchSelect(s, o, now, Running);
    DispatchOwners(s, o, now);
  }

  /** One dispatch attempt keeps the core invariant, moves the head of the
      owner's line (if any moves) and adds one to that owner's mirror count. */
  lemma DispatchCore(s: State, o: Owner, now: int)
    requires Core(s)
    ensures Core(TryDispatch(s, o, now))
  {
    if Dispatches(s, o) {
      DispatchStore(s, o, now);
      DispatchLines(s, o, now);
      DispatchQueues(s, o, now);
      DispatchMirror(s, o, now);
      DispatchCaps(s, o, now);
    }
  }

  /** A dispatch attempt moves the head of the owner's line, if any moves,
      and adds one to that owner's mirror count. */
  lemma DispatchQueueOf(s: State, o: Owner, now: int, p: Owner)
    requires WellFormed(s)
    ensures QueueOf(TryDispatch(s, o, now), p) == (if Dispatches(s, o) && p == o then QueueOf(s, o)[1..] else QueueOf(s, p))
  {
  }

  lemma DispatchCounts(s: State, o: Owner, now: int)
    requires WellFormed(s) && QueuesOk(s)
    ensures forall p :: QueueOf(TryDispatch(s, o, now), p) ==
                        (if Dispatches(s, o) && p == o then QueueOf(s, o)[1..] else QueueOf(s, p))
    ensures forall p :: OwnerCount(TryDispatch(s, o, now), p) ==
                        OwnerCount(s, p) + (if Dispatches(s, o) && p == o then 1 else 0)
  {
    forall p
      ensures QueueOf(TryDispatch(s, o, now), p) == (if Dispatches(s, o) && p == o then QueueOf(s, o)[1..] else QueueOf(s, p))
    {
      DispatchQueueOf(s, o, now, p);
    }
    if Dispatches(s, o) {
      DispatchOwners(s, o, now);
    }
  }

  /** Before a dispatch attempt: the other owners are saturated and `o`
      lacks at most the one job the attempt may move. */
  ghost predicate ReadyToDispatch(s: State, o: Owner)
    requires WellFormed(s)
  {
    && (forall p :: p != o ==> SaturatedFor(s, p))
    && (|QueueOf(s, o)| >= 2 ==> OwnerCount(s, o) + 1 >= s.cfg.userProcessLimit)
  }

  /** A dispatch attempt from a state that lacks at most one job for its
      owner restores the whole invariant. */
  lemma DispatchValid(s: State, o: Owner, now: int)
    requires Core(s) && ReadyToDispatch(s, o)
    ensures Valid(TryDispatch(s, o, now))
  {
    DispatchCore(s, o, now);
    forall p
      ensures SaturatedFor(TryDispatch(s, o, now), p)
    {
      DispatchSaturated(s, o, now, p);
    }
  }

  lemma DispatchSaturated(s: State, o: Owner, now: int, p: Owner)
    requires WellFormed(s) && QueuesOk(s) && ReadyToDispatch(s, o)
    ensures SaturatedFor(TryDispatch(s, o, now), p)
  {
    var r := TryDispatch(s, o, now);
    DispatchQueueOf(s, o, now, p);
    var n := OwnerCount(r, p);
    if !Dispatches(s, o) {
      if p != o {
        assert SaturatedFor(s, p);
      }
    } else {
      DispatchOwners(s, o, now);
      if p != o {
        assert SaturatedFor(s, p);
        assert n == OwnerCount(s, p);
      } else {
        assert n == OwnerCount(s, o) + 1;
      }
    }
  }
}
