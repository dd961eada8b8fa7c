/** The job manager (`JobManager`) as a sequential state machine: per-owner
    waiting lines, the mirror of the executor's queue, and the saved-job map.
    Every operation is a pure function from one state to the next; the clock
    and the id generator are parameters. Job records live in the saved-job
    map only, and the lines and the mirror refer to them by id. That matches
    the source's shared mutable objects, because a job enters its owner's
    line and the saved-job map in one step, inside one `synchronized` block
    (JobManager.java lines 191-194). */
module Manager {
  import opened Basics
  import opened Jobs
  import opened Mirror
  import Purge
  import Listing

  /** The settings the manager reads (`ApplicationSettings`). */
  datatype Config = Config(
    concurrentJobs: nat,     // size of the fixed thread pool
    userProcessLimit: nat,   // jobs per owner in the mirror at once
    userJobLimit: int,       // waiting-line size beyond which submissions drop
    purgeAfterHours: int)    // retention of finished jobs

  /** Values the source's `int` settings can hold; the pool needs a thread. */
  predicate ConfigOk(c: Config) {
    && 1 <= c.concurrentJobs && IsInt32(c.concurrentJobs)
    && IsInt32(c.userProcessLimit) && IsInt32(c.userJobLimit) && IsInt32(c.purgeAfterHours)
  }

  datatype State = State(
    cfg: Config,
    userQueues: map<Owner, seq<JobId>>,
    mirror: seq<JobId>,
    savedJobs: map<JobId, Job>)

  function Init(cfg: Config): (s: State)
    ensures s.cfg == cfg && s.mirror == [] && s.savedJobs == map[]
    ensures forall o :: o !in s.userQueues
  {
    State(cfg, map[], [], map[])
  }

  /** Every id held by a waiting line or by the mirror names a saved job, and
      the mirror, being a set, holds each id once. */
  predicate WellFormed(s: State) {
    && (forall o, id :: o in s.userQueues && id in s.userQueues[o] ==> id in s.savedJobs)
    && Resolves(s.savedJobs, s.mirror)
    && Distinct(s.mirror)
  }

  /** An owner's waiting line; an owner without one has an empty line. */
  function QueueOf(s: State, o: Owner): (q: seq<JobId>)
    ensures o !in s.userQueues ==> q == []
  {
    if o in s.userQueues then s.userQueues[o] else []
  }

  /** Jobs of owner `o` in the mirror, waiting or running. */
  function OwnerCount(s: State, o: Owner): nat
    requires WellFormed(s)
  {
    |Select(s.savedJobs, s.mirror, OwnedBy(o))|
  }

  function RunningCount(s: State): nat
    requires WellFormed(s)
  {
    |Select(s.savedJobs, s.mirror, Running)|
  }

  /** The mirror's waiting jobs, in mirror order. */
  function WaitingLine(s: State): seq<JobId>
    requires WellFormed(s)
  {
    Select(s.savedJobs, s.mirror, Waiting)
  }

  // ---------------------------------------------------------------------------
  // Creation and validation

  /** `createJob` with the generated id passed in: the builder's defaults, the
      inputs as given, and "unnamed" for a blank label. The status is unset
      (the source's null), modelled as the empty text. */
  function CreateJob(jobId: JobId, userId: Owner, givenLabel: string, pdb: string, fasta: string,
                     chainIds: string, email: string, hidden: bool): (j: Job)
    ensures Fresh(j) && j.jobId == jobId && j.userId == userId
    ensures j.inputPDBContent == pdb && j.inputFASTAContent == fasta && j.inputProteinChainIds == chainIds
    ensures j.email == email && j.hidden == hidden
    ensures !IsBlank(givenLabel) ==> j.jobLabel == givenLabel
    ensures IsBlank(givenLabel) ==> j.jobLabel == "unnamed"
    ensures !IsBlank(j.jobLabel)
    ensures j.status == ""
  {
    assert !IsWhitespace("unnamed"[0]);
    Job(jobId, userId, if IsBlank(givenLabel) then "unnamed" else givenLabel, pdb, fasta, chainIds, hidden, email,
        None, None, None, false, false, false, None, "", None, 0, false, None, false)
  }

  /** `validateJob`: none of the three inputs is blank, that is, each holds
      a character other than whitespace. */
  predicate ValidateJob(j: Job): (ok: bool)
    ensures ok ==> j.inputPDBContent != [] && j.inputFASTAContent != [] && j.inputProteinChainIds != []
    ensures ok <==>
      && (exists i :: 0 <= i < |j.inputPDBContent| && !IsWhitespace(j.inputPDBContent[i]))
      && (exists i :: 0 <= i < |j.inputFASTAContent| && !IsWhitespace(j.inputFASTAContent[i]))
      && (exists i :: 0 <= i < |j.inputProteinChainIds| && !IsWhitespace(j.inputProteinChainIds[i]))
  {
    !IsBlank(j.inputPDBContent) && !IsBlank(j.inputFASTAContent) && !IsBlank(j.inputProteinChainIds)
  }

  // ---------------------------------------------------------------------------
  // Retention

  /** `purgeAfterHours * 60 * 60 * 1000`, evaluated left to right in Java
      `int` arithmetic before it is added to the `long` clock. */
  function RetentionMillis(hours: int): (r: int)
    ensures IsInt32(r)
    ensures 0 <= hours <= 596 ==> r == hours * 3_600_000
    ensures 597 <= hours <= 1193 ==> r == hours * 3_600_000 - 0x1_0000_0000 && r < 0
  {
    Wrap32(Wrap32(Wrap32(hours * 60) * 60) * 1000)
  }

  /** The expiry stamp written at time `now`. */
  function Expiry(c: Config, now: int): int {
    now + RetentionMillis(c.purgeAfterHours)
  }

  // ---------------------------------------------------------------------------
  // Entering the mirror

  /** `submitToProcessQueue`: attach the job, add it to the mirror (a set, so
      a second add changes nothing) and number it by the count of waiting
      mirror jobs after the insertion. Handing the job to the executor is the
      mirror itself: the executor starts mirror jobs in mirror order. */
  function SubmitToProcessQueue(s: State, id: JobId): (r: State)
    requires WellFormed(s) && id in s.savedJobs
    ensures WellFormed(r)
    ensures r.cfg == s.cfg && r.userQueues == s.userQueues && r.savedJobs.Keys == s.savedJobs.Keys
    ensures r.mirror == if id in s.mirror then s.mirror else s.mirror + [id]
    ensures forall x :: x in s.savedJobs && x != id ==> r.savedJobs[x] == s.savedJobs[x]
    ensures r.savedJobs[id] == Numbered(s.savedJobs[id].(attached := true), |WaitingLine(r)|)
  {
    var t := Attach(s, id);
    var n := |WaitingLine(t)|;
    NumberKeepsLine(t, id, n);
    t.(savedJobs := t.savedJobs[id := Numbered(t.savedJobs[id], n)])
  }

  /** The job joins the mirror (a set: at most once) and is attached. */
  function Attach(s: State, id: JobId): (r: State)
    requires WellFormed(s) && id in s.savedJobs
    ensures WellFormed(r) && id in r.savedJobs
    ensures r.cfg == s.cfg && r.userQueues == s.userQueues && r.savedJobs.Keys == s.savedJobs.Keys
    ensures r.mirror == if id in s.mirror then s.mirror else s.mirror + [id]
    ensures r.savedJobs == s.savedJobs[id := s.savedJobs[id].(attached := true)]
  {
    var mirror := if id in s.mirror then s.mirror else s.mirror + [id];
    assert Distinct(mirror) by {
      if id !in s.mirror {
        DistinctAppend(s.mirror, id);
      }
    }
    s.(mirror := mirror, savedJobs := s.savedJobs[id := s.savedJobs[id].(attached := true)])
  }

  lemma NumberKeepsLine(t: State, id: JobId, n: int)
    requires WellFormed(t) && id in t.savedJobs
    ensures WellFormed(t.(savedJobs := t.savedJobs[id := Numbered(t.savedJobs[id], n)]))
    ensures WaitingLine(t.(savedJobs := t.savedJobs[id := Numbered(t.savedJobs[id], n)])) == WaitingLine(t)
  {
    NumberKeepsWaiting(t.savedJobs, t.mirror, id, n);
  }

  /** The condition under which `submitJobFromUserQueue` moves a job: the
      owner has fewer mirror jobs than the limit and a non-empty line. */
  predicate Dispatches(s: State, o: Owner)
    requires WellFormed(s)
  {
    OwnerCount(s, o) < s.cfg.userProcessLimit && QueueOf(s, o) != []
  }

  /** A successful `submitJobFromUserQueue`: the head of the owner's line
      leaves the line, is stamped with the submission time and enters the
      mirror at the back of the waiting order. */
  function Dispatch(s: State, o: Owner, now: int): (r: State)
    requires WellFormed(s) && QueueOf(s, o) != []
    ensures WellFormed(r)
    ensures r.cfg == s.cfg && r.savedJobs.Keys == s.savedJobs.Keys
    ensures var h := QueueOf(s, o)[0];
      && r.userQueues == s.userQueues[o := QueueOf(s, o)[1..]]
      && r.mirror == (if h in s.mirror then s.mirror else s.mirror + [h])
      && (forall x :: x in s.savedJobs && x != h ==> r.savedJobs[x] == s.savedJobs[x])
      && r.savedJobs[h] == Numbered(s.savedJobs[h].(submittedDate := Some(now), attached := true), |WaitingLine(r)|)
  {
    SubmitToProcessQueue(PopHead(s, o, now), QueueOf(s, o)[0])
  }

  /** The head leaves the owner's line and is stamped with the submission
      time. */
  function PopHead(s: State, o: Owner, now: int): (r: State)
    requires WellFormed(s) && QueueOf(s, o) != []
    ensures WellFormed(r) && QueueOf(s, o)[0] in r.savedJobs
    ensures r.cfg == s.cfg && r.mirror == s.mirror
    ensures r.userQueues == s.userQueues[o := QueueOf(s, o)[1..]]
    ensures r.savedJobs.Keys == s.savedJobs.Keys
    ensures forall x :: x in s.savedJobs && x != QueueOf(s, o)[0] ==> r.savedJobs[x] == s.savedJobs[x]
    ensures r.savedJobs[QueueOf(s, o)[0]] == s.savedJobs[QueueOf(s, o)[0]].(submittedDate := Some(now))
  {
    var q := s.userQueues[o];
    var h := q[0];
    assert h in q;
    var stamped := s.savedJobs[h := s.savedJobs[h].(submittedDate := Some(now))];
    var r := s.(userQueues := s.userQueues[o := q[1..]], savedJobs := stamped);
    assert WellFormed(r) by {
      forall p, id | p in r.userQueues && id in r.userQueues[p]
        ensures id in stamped
      {
        if p == o {
          assert id in q;
        }
      }
    }
    r
  }

  /** `submitJobFromUserQueue`: one dispatch attempt for owner `o`, which
      moves a job only when the owner is below the limit. */
  function TryDispatch(s: State, o: Owner, now: int): (r: State)
    requires WellFormed(s)
    ensures WellFormed(r)
    ensures r.cfg == s.cfg && r.savedJobs.Keys == s.savedJobs.Keys
    ensures !Dispatches(s, o) ==> r == s
    ensures Dispatches(s, o) ==>
      var h := QueueOf(s, o)[0];
      && r.userQueues == s.userQueues[o := QueueOf(s, o)[1..]]
      && r.mirror == (if h in s.mirror then s.mirror else s.mirror + [h])
      && (forall x :: x in s.savedJobs && x != h ==> r.savedJobs[x] == s.savedJobs[x])
      && r.savedJobs[h] == Numbered(s.savedJobs[h].(submittedDate := Some(now), attached := true), |WaitingLine(r)|)
  {
    if Dispatches(s, o) then Dispatch(s, o, now) else s
  }

  // ---------------------------------------------------------------------------
  // Submission

  /** `saveJob`: mark the job saved and store it under its id. */
  function SaveJob(m: map<JobId, Job>, j: Job): (r: map<JobId, Job>)
    ensures r.Keys == m.Keys + {j.jobId}
    ensures r[j.jobId].saved && r[j.jobId] == j.(saved := true)
    ensures forall x :: x in m && x != j.jobId ==> r[x] == m[x]
  {
    m[j.jobId := j.(saved := true)]
  }

  /** The owner's line after `computeIfAbsent`: present, empty if it was absent. */
  function WithQueue(s: State, o: Owner): (r: State)
    ensures r.cfg == s.cfg && r.mirror == s.mirror && r.savedJobs == s.savedJobs
    ensures o in r.userQueues && forall p :: QueueOf(r, p) == QueueOf(s, p)
    ensures r.userQueues.Keys == s.userQueues.Keys + {o}
  {
    s.(userQueues := s.userQueues[o := QueueOf(s, o)])
  }

  /** The line admits a job while it holds no more than `userJobLimit` jobs. */
  predicate Admits(s: State, o: Owner) {
    |QueueOf(s, o)| <= s.cfg.userJobLimit
  }

  /** Append an admitted job to its owner's line, status "Pending", and save
      it; this happens before the dispatch attempt. */
  function Enqueue(s: State, j: Job): (r: State)
    requires WellFormed(s)
    ensures WellFormed(r)
    ensures r.cfg == s.cfg && r.mirror == s.mirror
    ensures QueueOf(r, j.userId) == QueueOf(s, j.userId) + [j.jobId]
    ensures forall p :: p != j.userId ==> QueueOf(r, p) == QueueOf(s, p)
    ensures r.userQueues.Keys == s.userQueues.Keys + {j.userId}
    ensures r.savedJobs == SaveJob(s.savedJobs, j.(status := "Pending"))
  {
    var o := j.userId;
    s.(userQueues := s.userQueues[o := QueueOf(s, o) + [j.jobId]],
       savedJobs := SaveJob(s.savedJobs, j.(status := "Pending")))
  }

  /** `submitToUserQueue`. The line is created if missing; a line holding more
      than `userJobLimit` jobs drops the submission silently; a job already in
      the line (same id) is not added twice. */
  function SubmitToUserQueue(s: State, j: Job, now: int): (r: State)
    requires WellFormed(s)
    ensures WellFormed(r) && r.cfg == s.cfg
    ensures !Admits(s, j.userId) || j.jobId in QueueOf(s, j.userId) ==> r == WithQueue(s, j.userId)
    ensures Admits(s, j.userId) && j.jobId !in QueueOf(s, j.userId) ==> r == TryDispatch(Enqueue(s, j), j.userId, now)
  {
    var o := j.userId;
    var withQueue := WithQueue(s, o);
    if !Admits(s, o) then withQueue
    else if j.jobId in QueueOf(s, o) then withQueue
    else TryDispatch(Enqueue(s, j), o, now)
  }

  /** What `submit` leaves behind: the manager's state, the returned message
      and the caller's job record. An admitted job is the very object the
      manager stores, so the caller sees the stored record. */
  datatype Submission = Submission(state: State, message: string, job: Job)

  /** `submit`. An invalid job is marked failed and complete and never reaches
      a line or the saved map; a valid one goes to its owner's line and the
      message is empty, whether or not the line had room. */
  function Submit(s: State, j: Job, now: int): (r: Submission)
    requires WellFormed(s)
    ensures WellFormed(r.state) && r.state.cfg == s.cfg
    ensures !ValidateJob(j) ==>
      && r.message == "Validation Failed" && r.state == s
      && r.job.complete && r.job.failed && r.job.status == "Validation Failed"
      && SameSubmission(r.job, j) && r.job.saved == j.saved
    ensures ValidateJob(j) ==> r.message == "" && r.state == SubmitToUserQueue(s, j, now)
    ensures ValidateJob(j) && Admits(s, j.userId) && j.jobId !in QueueOf(s, j.userId) ==>
      j.jobId in r.state.savedJobs && r.job == r.state.savedJobs[j.jobId]
    ensures ValidateJob(j) && !(Admits(s, j.userId) && j.jobId !in QueueOf(s, j.userId)) ==> r.job == j
  {
    if !ValidateJob(j) then
      Submission(s, "Validation Failed", j.(complete := true, failed := true, status := "Validation Failed"))
    else
      var st := SubmitToUserQueue(s, j, now);
      if Admits(s, j.userId) && j.jobId !in QueueOf(s, j.userId) then
        assert j.jobId in Enqueue(s, j).savedJobs;
        Submission(st, "", st.savedJobs[j.jobId])
      else Submission(st, "", j)
  }

  // ---------------------------------------------------------------------------
  // Starting and finishing

  /** A pool thread is free and a job waits in the mirror. */
  predicate CanStart(s: State)
    requires WellFormed(s)
  {
    WaitingLine(s) != [] && RunningCount(s) < s.cfg.concurrentJobs
  }

  /** The executor starts the first waiting job: the job marks itself running
      (`call()`'s first assignments) and `onJobStart` renumbers the remaining
      waiting jobs 1, 2, ... in mirror order. */
  function StartNext(s: State, now: int): (r: State)
    requires WellFormed(s)
    ensures WellFormed(r)
    ensures r.cfg == s.cfg && r.userQueues == s.userQueues && r.mirror == s.mirror
    ensures r.savedJobs.Keys == s.savedJobs.Keys
    ensures !CanStart(s) ==> r == s
    ensures CanStart(s) ==> r.savedJobs[WaitingLine(s)[0]] == Begin(s.savedJobs[WaitingLine(s)[0]], now)
  {
    if !CanStart(s) then s
    else
      var id := WaitingLine(s)[0];
      var begun := s.savedJobs[id := Begin(s.savedJobs[id], now)];
      RenumberFrame(begun, s.mirror, 1, id);
      s.(savedJobs := Renumber(begun, s.mirror, 1))
  }

  /** The first part of `onJobComplete`: stamp the expiry, clear the
      position and leave the mirror. */
  function Depart(s: State, id: JobId, now: int): (r: State)
    requires WellFormed(s) && id in s.savedJobs
    ensures WellFormed(r) && r.cfg == s.cfg && r.userQueues == s.userQueues
    ensures r.mirror == Remove(s.mirror, id) && id !in r.mirror
    ensures r.savedJobs == s.savedJobs[id := s.savedJobs[id].(saveExpiredDate := Some(Expiry(s.cfg, now)), position := None)]
  {
    var j := s.savedJobs[id].(saveExpiredDate := Some(Expiry(s.cfg, now)), position := None);
    s.(savedJobs := s.savedJobs[id := j], mirror := Remove(s.mirror, id))
  }

  /** `onJobComplete`: depart, then make one dispatch attempt for the job's
      owner. */
  function OnJobComplete(s: State, id: JobId, now: int): (r: State)
    requires WellFormed(s) && id in s.savedJobs
    ensures WellFormed(r) && r.cfg == s.cfg && r.savedJobs.Keys == s.savedJobs.Keys
    ensures var o := s.savedJobs[id].userId;
      && (forall p :: p != o ==> QueueOf(r, p) == QueueOf(s, p))
      && (QueueOf(r, o) == QueueOf(s, o) || (QueueOf(s, o) != [] && QueueOf(r, o) == QueueOf(s, o)[1..]))
    ensures id !in QueueOf(s, s.savedJobs[id].userId) ==>
      && id !in r.mirror
      && r.savedJobs[id] == s.savedJobs[id].(saveExpiredDate := Some(Expiry(s.cfg, now)), position := None)
  {
    var o := s.savedJobs[id].userId;
    var d := Depart(s, id, now);
    DispatchTakesHead(d, o, now);
    if id !in QueueOf(s, o) then
      DispatchSkips(d, o, now, id);
      TryDispatch(d, o, now)
    else TryDispatch(d, o, now)
  }

  /** A dispatch attempt takes at most the head of the owner's line and
      touches no other line. */
  lemma DispatchTakesHead(s: State, o: Owner, now: int)
    requires WellFormed(s)
    ensures forall p :: p != o ==> QueueOf(TryDispatch(s, o, now), p) == QueueOf(s, p)
    ensures QueueOf(TryDispatch(s, o, now), o) == QueueOf(s, o) || (QueueOf(s, o) != [] && QueueOf(TryDispatch(s, o, now), o) == QueueOf(s, o)[1..])
  {
  }

  /** A job outside the mirror and outside the owner's line stays out of the
      mirror, and its record untouched, through a dispatch attempt. */
  lemma DispatchSkips(s: State, o: Owner, now: int, x: JobId)
    requires WellFormed(s) && x in s.savedJobs && x !in s.mirror && x !in QueueOf(s, o)
    ensures x !in TryDispatch(s, o, now).mirror && TryDispatch(s, o, now).savedJobs[x] == s.savedJobs[x]
  {
    if Dispatches(s, o) {
      assert QueueOf(s, o)[0] in QueueOf(s, o);
    }
  }

  /** A running mirror job can finish. */
  predicate CanFinish(s: State, id: JobId) {
    id in s.mirror && id in s.savedJobs && s.savedJobs[id].running
  }

  /** The end of `call()`: the run's outcome is applied to the job, the
      manager is told once, and the job drops its reference to the manager. */
  function Finish(s: State, id: JobId, o: RunOutcome, now: int): (r: State)
    requires WellFormed(s)
    ensures WellFormed(r) && r.cfg == s.cfg && r.savedJobs.Keys == s.savedJobs.Keys
    ensures !CanFinish(s, id) ==> r == s
    ensures CanFinish(s, id) ==> var owner := s.savedJobs[id].userId;
      && (forall p :: p != owner ==> QueueOf(r, p) == QueueOf(s, p))
      && (QueueOf(r, owner) == QueueOf(s, owner) || (QueueOf(s, owner) != [] && QueueOf(r, owner) == QueueOf(s, owner)[1..]))
    ensures CanFinish(s, id) && id !in QueueOf(s, s.savedJobs[id].userId) ==>
      && id !in r.mirror
      && r.savedJobs[id] == Execute(s.savedJobs[id], o, now).(saveExpiredDate := Some(Expiry(s.cfg, now)), position := None, attached := false)
  {
    if !CanFinish(s, id) then s
    else
      var j := s.savedJobs[id];
      var ran := Replace(s, id, Execute(j, o, now));
      assert ran.savedJobs[id].userId == j.userId;
      SameLines(s, ran);
      var done := OnJobComplete(ran, id, now);
      var r := Replace(done, id, done.savedJobs[id].(attached := false));
      SameLines(done, r);
      r
  }

  /** States with the same lines agree on every owner's line. */
  lemma SameLines(a: State, b: State)
    requires a.userQueues == b.userQueues
    ensures forall p :: QueueOf(a, p) == QueueOf(b, p)
  {
  }

  /** Storing a new record under a known id keeps every other record, every
      line and the mirror as they were. */
  function Replace(s: State, id: JobId, k: Job): (r: State)
    requires WellFormed(s) && id in s.savedJobs
    ensures WellFormed(r) && r.cfg == s.cfg && r.userQueues == s.userQueues && r.mirror == s.mirror
    ensures r.savedJobs.Keys == s.savedJobs.Keys && r.savedJobs[id] == k
    ensures forall x :: x in s.savedJobs && x != id ==> r.savedJobs[x] == s.savedJobs[x]
  {
    ReplaceWellFormed(s, id, k);
    s.(savedJobs := s.savedJobs[id := k])
  }

  /** Replacing a stored record keeps every id resolvable. */
  lemma ReplaceWellFormed(s: State, id: JobId, k: Job)
    requires WellFormed(s) && id in s.savedJobs
    ensures WellFormed(s.(savedJobs := s.savedJobs[id := k]))
    ensures s.savedJobs[id := k].Keys == s.savedJobs.Keys
  {
  }

  // ---------------------------------------------------------------------------
  // Reading and purging

  /** `getSavedJob`: a known job's expiry is pushed back to `now` plus the
      retention and the job is returned; an unknown id yields nothing. */
  function GetSavedJob(s: State, id: JobId, now: int): (r: (State, Option<Job>))
    ensures id !in s.savedJobs ==> r.0 == s && r.1 == None
    ensures id in s.savedJobs ==>
      && r.1 == Some(s.savedJobs[id].(saveExpiredDate := Some(Expiry(s.cfg, now))))
      && r.0 == s.(savedJobs := s.savedJobs[id := r.1.value])
  {
    if id in s.savedJobs then
      var j := s.savedJobs[id].(saveExpiredDate := Some(Expiry(s.cfg, now)));
      (s.(savedJobs := s.savedJobs[id := j]), Some(j))
    else (s, None)
  }

  /** One run of the sweeper at time `now`. */
  function PurgeJobs(s: State, now: int): (r: State)
    requires Purge.StampedWhenComplete(s.savedJobs)
    ensures r.cfg == s.cfg && r.userQueues == s.userQueues && r.mirror == s.mirror
    ensures forall id :: id in r.savedJobs <==> id in s.savedJobs && !Purge.Expired(s.savedJobs[id], now)
    ensures forall id :: id in r.savedJobs ==> r.savedJobs[id] == s.savedJobs[id]
  {
    s.(savedJobs := Purge.Sweep(s.savedJobs, now))
  }

  // ---------------------------------------------------------------------------
  // The public listing

  /** Ids of the jobs the listing shows: mirror jobs and saved jobs, each id
      once, that are not hidden. */
  function PublicIds(s: State): (ids: set<JobId>)
    requires WellFormed(s)
    ensures forall id :: id in ids <==> id in s.savedJobs && !s.savedJobs[id].hidden
  {
    set id | id in (set x | x in s.mirror) + s.savedJobs.Keys && !s.savedJobs[id].hidden
  }

  /** Every entry of `r` is the masked value object of a job of `done`. */
  predicate ViewsOf(s: State, done: set<JobId>, r: seq<JobView>)
    requires done <= s.savedJobs.Keys
  {
    forall i :: 0 <= i < |r| ==> r[i].jobId in done && r[i] == ToValueObject(s.savedJobs[r[i].jobId], true)
  }

  /** The ids `r` lists. */
  function IdsOf(r: seq<JobView>): (ids: set<JobId>)
    ensures forall v :: v in r ==> v.jobId in ids
  {
    set v | v in r :: v.jobId
  }

  /** A list without repeated ids lists as many ids as it has entries. */
  lemma {:induction false} IdsOfCount(r: seq<JobView>)
    requires Listing.DistinctIds(r)
    ensures |IdsOf(r)| == |r|
  {
    if r != [] {
      var init := r[..|r| - 1];
      var last := r[|r| - 1];
      assert r == init + [last];
      assert Listing.DistinctIds(init);
      assert IdsOf(r) == IdsOf(init) + {last.jobId};
      assert last.jobId !in IdsOf(init);
      IdsOfCount(init);
    }
  }

  /** A subset as large as its superset is the superset. */
  lemma SubsetSameSize<T>(a: set<T>, b: set<T>)
    requires a <= b && |a| == |b|
    ensures a == b
  {
    assert |b - a| == |b| - |a|;
  }

  /** `r` lists, sorted and each once, the masked value objects of jobs of
      `done`, one entry per job of `done`. */
  predicate Listed(s: State, done: set<JobId>, r: seq<JobView>)
    requires done <= s.savedJobs.Keys
  {
    Listing.Sorted(r) && Listing.DistinctIds(r) && |r| == |done| && ViewsOf(s, done, r)
  }

  lemma ViewsStep(s: State, done: set<JobId>, r: seq<JobView>, id: JobId)
    requires done <= s.savedJobs.Keys && id in s.savedJobs && s.savedJobs[id].jobId == id
    requires ViewsOf(s, done, r)
    ensures ViewsOf(s, done + {id}, Listing.Insert(r, ToValueObject(s.savedJobs[id], true)))
  {
    var v := ToValueObject(s.savedJobs[id], true);
    var r' := Listing.Insert(r, v);
    Listing.InsertMembers(r, v);
    forall i | 0 <= i < |r'|
      ensures r'[i].jobId in done + {id} && r'[i] == ToValueObject(s.savedJobs[r'[i].jobId], true)
    {
      assert r'[i] in r';
      if r'[i] != v {
        var k :| 0 <= k < |r| && r[k] == r'[i];
      }
    }
  }

  /** One step of the listing loop: adding a further job by sorted insertion. */
  lemma ListStep(s: State, done: set<JobId>, r: seq<JobView>, id: JobId)
    requires done <= s.savedJobs.Keys && id in s.savedJobs && id !in done
    requires s.savedJobs[id].jobId == id
    requires Listed(s, done, r)
    ensures Listed(s, done + {id}, Listing.Insert(r, ToValueObject(s.savedJobs[id], true)))
  {
    var v := ToValueObject(s.savedJobs[id], true);
    Listing.InsertSorted(r, v);
    Listing.InsertDistinct(r, v);
    ViewsStep(s, done, r, id);
  }

  /** The listing loop over any set of saved ids: insert each job's masked
      value object in sorted position. */
  method ListIds(s: State, all: set<JobId>) returns (r: seq<JobView>)
    requires all <= s.savedJobs.Keys
    requires forall id :: id in all ==> s.savedJobs[id].jobId == id
    ensures Listed(s, all, r)
  {
    var pending := all;
    var done := {};
    r := [];
    while pending != {}
      invariant done + pending == all && done !! pending
      invariant Listed(s, done, r)
      decreases |pending|
    {
      var id :| id in pending;
      r := InsertView(s, done, r, id);
      done := done + {id};
      pending := pending - {id};
    }
    assert done == all;
  }

  /** One step of the listing loop: the job's masked value object goes in at
      its sorted position. */
  method InsertView(s: State, done: set<JobId>, r: seq<JobView>, id: JobId) returns (r': seq<JobView>)
    requires done <= s.savedJobs.Keys && id in s.savedJobs && id !in done
    requires s.savedJobs[id].jobId == id
    requires Listed(s, done, r)
    ensures Listed(s, done + {id}, r')
  {
    ListStep(s, done, r, id);
    r' := Listing.Insert(r, ToValueObject(s.savedJobs[id], true));
  }

  /** `listPublicJobs`: the value objects of the public jobs, e-mail masked,
      each job once, sorted by the listing order. Jobs that compare equal may
      come in any order here. */
  method ListPublicJobs(s: State) returns (r: seq<JobView>)
    requires WellFormed(s)
    requires forall id :: id in s.savedJobs ==> s.savedJobs[id].jobId == id
    ensures Listing.Sorted(r)
    ensures Listing.DistinctIds(r) && |r| == |PublicIds(s)|
    ensures forall i :: 0 <= i < |r| ==> r[i].jobId in PublicIds(s) && r[i] == ToValueObject(s.savedJobs[r[i].jobId], true)
    ensures forall id :: id in PublicIds(s) ==> exists i :: 0 <= i < |r| && r[i].jobId == id
  {
    r := ListIds(s, PublicIds(s));
    ListedAll(s, r);
  }

  lemma ListedAll(s: State, r: seq<JobView>)
    requires WellFormed(s) && Listed(s, PublicIds(s), r)
    ensures Listing.Sorted(r)
    ensures Listing.DistinctIds(r) && |r| == |PublicIds(s)|
    ensures forall i :: 0 <= i < |r| ==> r[i].jobId in PublicIds(s) && r[i] == ToValueObject(s.savedJobs[r[i].jobId], true)
    ensures forall id :: id in PublicIds(s) ==> exists i :: 0 <= i < |r| && r[i].jobId == id
  {
    var all := PublicIds(s);
    assert IdsOf(r) <= all by {
      forall x | x in IdsOf(r)
        ensures x in all
      {
        var w :| w in r && w.jobId == x;
        var i :| 0 <= i < |r| && r[i] == w;
      }
    }
    IdsOfCount(r);
    SubsetSameSize(IdsOf(r), all);
    forall id | id in all
      ensures exists i :: 0 <= i < |r| && r[i].jobId == id
    {
      var w :| w in r && w.jobId == id;
      var i :| 0 <= i < |r| && r[i] == w;
    }
  }
}
