/** One submitted computation (`IDRBindJob`): its identity, inputs and
    lifecycle fields, the start and finish transitions of `call()`, and the
    read-only value object handed out to callers.

    The file system and the external program are not part of this model:
    what they did during one run is summarised by a `RunOutcome` value. */
module Jobs {
  import opened Basics

  type JobId = string
  type Owner = string

  /** The two output texts of a run (`IDRBindJobResult`). */
  datatype JobResult = JobResult(resultPDB: string, resultCSV: string)

  /** The mutable job record. `attached` stands for the back-reference to the
      owning manager, set when the job enters the process queue and cleared
      once its completion has been reported. */
  datatype Job = Job(
    jobId: JobId,
    userId: Owner,
    jobLabel: string,
    inputPDBContent: string,
    inputFASTAContent: string,
    inputProteinChainIds: string,
    hidden: bool,
    email: string,
    submittedDate: Option<int>,
    startedDate: Option<int>,
    finishedDate: Option<int>,
    running: bool,
    failed: bool,
    complete: bool,
    position: Option<int>,
    status: string,
    result: Option<JobResult>,
    executionTime: int,
    saved: bool,
    saveExpiredDate: Option<int>,
    attached: bool)

  /** Job equality (`@EqualsAndHashCode(of = {"jobId"})`): only the id counts. */
  predicate SameJob(a: Job, b: Job) {
    a.jobId == b.jobId
  }

  /** Everything fixed at creation: identity, owner, label, inputs, visibility
      and contact address. No transition of the job touches these. */
  predicate SameSubmission(a: Job, b: Job) {
    && a.jobId == b.jobId
    && a.userId == b.userId
    && a.jobLabel == b.jobLabel
    && a.inputPDBContent == b.inputPDBContent
    && a.inputFASTAContent == b.inputFASTAContent
    && a.inputProteinChainIds == b.inputProteinChainIds
    && a.hidden == b.hidden
    && a.email == b.email
  }

  /** A job as the builder leaves it: every lifecycle flag at its default. */
  predicate Fresh(j: Job) {
    && !j.running && !j.failed && !j.complete && !j.saved && !j.attached
    && j.position == None && j.saveExpiredDate == None && j.result == None
    && j.submittedDate == None && j.startedDate == None && j.finishedDate == None
    && j.executionTime == 0
  }

  // ---------------------------------------------------------------------------
  // call(): start

  /** The first four assignments of `call()`, made before the manager is told
      that the job started. */
  function Begin(j: Job, now: int): (r: Job)
    ensures SameSubmission(r, j)
    ensures r.running && r.position == Some(0) && r.status == "Processing"
    ensures r.startedDate == Some(now)
    ensures r.complete == j.complete && r.failed == j.failed && r.saved == j.saved
    ensures r.attached == j.attached && r.saveExpiredDate == j.saveExpiredDate
    ensures r.submittedDate == j.submittedDate
  {
    j.(running := true, status := "Processing", position := Some(0), startedDate := Some(now))
  }

  // ---------------------------------------------------------------------------
  // call(): the guarded body and its failure handler

  /** What happened outside the process during one run. The external
      program's own failure is recorded but has no effect: the source swallows
      it, and only missing or unreadable output files fail the job. */
  datatype RunOutcome = RunOutcome(
    inputsWritten: bool,          // job directory created, both input files written
    commandSucceeded: bool,       // exit status of the external program
    elapsedMillis: nat,           // stop-watch reading around the program
    outputs: Option<JobResult>,   // None: an output file is missing or unreadable
    snapshotWritten: bool)        // serialised job written to the job directory

  /** A run that reaches the end of the guarded block without an exception. */
  predicate Succeeds(o: RunOutcome) {
    o.inputsWritten && o.outputs.Some? && o.snapshotWritten
  }

  function CompletedStatus(seconds: int): string {
    "Completed in " + IntToString(seconds) + "s"
  }

  function FailedStatus(seconds: int): string {
    "Failed after " + IntToString(seconds) + "s"
  }

  /** The exception handler: an empty result and a failed, complete job whose
      status reports the execution time recorded so far. */
  function FailAfter(j: Job, now: int): Job {
    j.(finishedDate := Some(now), result := Some(JobResult("", "")), complete := true,
       running := false, failed := true, status := FailedStatus(j.executionTime))
  }

  /** The body of `call()` after the start notification, up to (not including)
      the completion callback. */
  function Execute(j: Job, o: RunOutcome, now: int): (r: Job)
    ensures SameSubmission(r, j)
    ensures r.complete && !r.running
    ensures r.failed <==> j.failed || !Succeeds(o)
    ensures r.executionTime == if o.inputsWritten then o.elapsedMillis / 1000 else j.executionTime
    ensures Succeeds(o) ==> r.result == o.outputs && r.status == CompletedStatus(o.elapsedMillis / 1000)
    ensures !Succeeds(o) ==> r.result == Some(JobResult("", "")) && r.status == FailedStatus(r.executionTime)
    ensures r.finishedDate == Some(now)
    ensures r.position == j.position && r.startedDate == j.startedDate && r.submittedDate == j.submittedDate
    ensures r.saved == j.saved && r.saveExpiredDate == j.saveExpiredDate && r.attached == j.attached
  {
    if !o.inputsWritten then FailAfter(j, now)
    else
      var timed := j.(executionTime := o.elapsedMillis / 1000, finishedDate := Some(now));
      match o.outputs
      case None => FailAfter(timed, now)
      case Some(res) =>
        var done := timed.(result := Some(res), status := CompletedStatus(timed.executionTime),
                           running := false, complete := true);
        if o.snapshotWritten then done else FailAfter(done, now)
  }

  /** The external program's exit status never reaches the job. */
  lemma CommandErrorSwallowed(j: Job, o: RunOutcome, now: int)
    ensures Execute(j, o.(commandSucceeded := false), now) == Execute(j, o.(commandSucceeded := true), now)
  {
  }

  /** A snapshot that cannot be written undoes an otherwise successful run:
      the job ends failed with an empty result, its elapsed time kept. */
  lemma SnapshotFailureFailsJob(j: Job, o: RunOutcome, now: int)
    requires o.inputsWritten && o.outputs.Some? && !o.snapshotWritten
    ensures Execute(j, o, now).failed
    ensures Execute(j, o, now).result == Some(JobResult("", ""))
    ensures Execute(j, o, now).status == FailedStatus(o.elapsedMillis / 1000)
  {
  }

  /** A failure before the program ran reports the execution time the job
      already had, which is zero for a job that never ran before. */
  lemma EarlyFailureReportsZero(j: Job, o: RunOutcome, now: int)
    requires j.executionTime == 0 && !o.inputsWritten
    ensures Execute(Begin(j, now), o, now).status == FailedStatus(0)
    ensures Execute(Begin(j, now), o, now).failed
  {
  }

  /** Starting and finishing keep the job equal to itself: identity is the id. */
  lemma LifecyclePreservesIdentity(j: Job, o: RunOutcome, now: int, later: int)
    ensures SameJob(Begin(j, now), j) && SameJob(Execute(Begin(j, now), o, later), j)
    ensures forall k: Job :: SameJob(k, j) <==> SameJob(k, Execute(Begin(j, now), o, later))
  {
  }

  // ---------------------------------------------------------------------------
  // The value object and the e-mail mask

  /** `IDRBindJobVO`. */
  datatype JobView = JobView(
    jobId: JobId,
    jobLabel: string,
    status: string,
    running: bool,
    failed: bool,
    complete: bool,
    position: Option<int>,
    email: string,
    hidden: bool,
    submittedDate: Option<int>,
    startedDate: Option<int>,
    finishedDate: Option<int>,
    inputProteinChainIds: string,
    result: Option<JobResult>)

  /** A regular-expression word character, `\w` without the Unicode flag. */
  predicate IsWordChar(c: char) {
    'a' <= c <= 'z' || 'A' <= c <= 'Z' || '0' <= c <= '9' || c == '_'
  }

  /** Index of the last occurrence of `c`. */
  function LastIndexOf(s: string, c: char): (r: Option<nat>)
    ensures r.None? <==> c !in s
    ensures r.Some? ==> r.value < |s| && s[r.value] == c && c !in s[r.value + 1..]
  {
    if s == [] then None
    else if s[|s| - 1] == c then Some(|s| - 1)
    else
      assert s == s[..|s| - 1] + [s[|s| - 1]];
      LastIndexOf(s[..|s| - 1], c)
  }

  /** Index of the first word character. */
  function FirstWordIndex(s: string, from: nat): (r: Option<nat>)
    requires from <= |s|
    ensures r.Some? ==> from <= r.value < |s| && IsWordChar(s[r.value])
    ensures r.Some? ==> forall i :: from <= i < r.value ==> !IsWordChar(s[i])
    ensures r.None? ==> forall i :: from <= i < |s| ==> !IsWordChar(s[i])
    decreases |s| - from
  {
    if from == |s| then None
    else if IsWordChar(s[from]) then Some(from)
    else FirstWordIndex(s, from + 1)
  }

  /** Length of the run of word characters starting at `i`. */
  function WordRun(s: string, i: nat): (n: nat)
    requires i <= |s|
    ensures i + n <= |s|
    ensures forall k :: i <= k < i + n ==> IsWordChar(s[k])
    ensures i + n < |s| ==> !IsWordChar(s[i + n])
    decreases |s| - i
  {
    if i < |s| && IsWordChar(s[i]) then 1 + WordRun(s, i + 1) else 0
  }

  /** `email.replaceAll("(\\w{0,3})(\\w+.*)(@.*)", "$1****$3")` on a single
      line: the first match starts at the first word character and runs to
      the end; it keeps up to three leading word characters (one fewer when
      the run is shorter, since `\w+` needs one) and everything from the last
      '@' on. */
  function MaskEmail(e: string): (r: string)
    ensures '@' !in e ==> r == e
    ensures r == e || exists k, at :: MaskedAt(e, r, k, at)
  {
    match (FirstWordIndex(e, 0), LastIndexOf(e, '@'))
    case (Some(i), Some(at)) =>
      if i < at then
        var run := WordRun(e, i);
        var keep := if run > 3 then 3 else run - 1;
        WordRunBeforeAt(e, at, i);
        assert MaskedAt(e, e[..i + keep] + "****" + e[at..], i + keep, at);
        e[..i + keep] + "****" + e[at..]
      else e
    case _ => e
  }

  /** `r` is `e` with the part from `k` up to its last '@', at `at`,
      replaced by four stars. */
  predicate MaskedAt(e: string, r: string, k: nat, at: nat) {
    k < at < |e| && e[at] == '@' && '@' !in e[at + 1..] && r == e[..k] + "****" + e[at..]
  }

  /** An address without '@' does not match the pattern and is left as it is. */
  lemma MaskEmailWithoutAt(e: string)
    requires '@' !in e
    ensures MaskEmail(e) == e
  {
  }

  lemma {:induction false} LastIndexOfIs(s: string, c: char, at: nat)
    requires at < |s| && s[at] == c && c !in s[at + 1..]
    ensures LastIndexOf(s, c) == Some(at)
  {
    if at < |s| - 1 {
      assert s[|s| - 1] == s[at + 1..][|s| - 2 - at];
      var init := s[..|s| - 1];
      assert init[at + 1..] == s[at + 1..|s| - 1];
      LastIndexOfIs(init, c, at);
    }
  }

  /** The word run the pattern starts at lies before the last '@'. */
  lemma WordRunBeforeAt(e: string, at: nat, i: nat)
    requires at < |e| && e[at] == '@'
    requires i < at && IsWordChar(e[i])
    ensures FirstWordIndex(e, 0).Some? && FirstWordIndex(e, 0).value <= i
    ensures FirstWordIndex(e, 0).value + WordRun(e, FirstWordIndex(e, 0).value) <= at
    ensures WordRun(e, FirstWordIndex(e, 0).value) >= 1
  {
    assert !IsWordChar(e[at]);
  }

  /** The replacement the pattern makes once its groups are located. */
  lemma MaskEmailShape(e: string, at: nat, first: nat)
    requires LastIndexOf(e, '@') == Some(at) && FirstWordIndex(e, 0) == Some(first) && first < at
    ensures
      var run := WordRun(e, first);
      MaskEmail(e) == e[..first + (if run > 3 then 3 else run - 1)] + "****" + e[at..]
  {
    assert (FirstWordIndex(e, 0), LastIndexOf(e, '@')) == (Some(first), Some(at));
  }

  /** Where the pattern matches, the mask keeps a proper prefix of the part
      before the last '@', inserts four stars and keeps the domain. */
  lemma MaskEmailKeepsDomain(e: string, at: nat)
    requires at < |e| && e[at] == '@' && '@' !in e[at + 1..]
    requires exists i :: 0 <= i < at && IsWordChar(e[i])
    ensures exists k :: MaskedAt(e, MaskEmail(e), k, at)
  {
    var i :| 0 <= i < at && IsWordChar(e[i]);
    LastIndexOfIs(e, '@', at);
    WordRunBeforeAt(e, at, i);
    MaskEmailPrefix(e, at, FirstWordIndex(e, 0).value);
  }

  /** Once the groups are located, the kept prefix ends before the '@'. */
  lemma MaskEmailPrefix(e: string, at: nat, first: nat)
    requires LastIndexOf(e, '@') == Some(at) && FirstWordIndex(e, 0) == Some(first)
    requires first + WordRun(e, first) <= at && WordRun(e, first) >= 1
    ensures exists k :: MaskedAt(e, MaskEmail(e), k, at)
  {
    var run := WordRun(e, first);
    MaskEmailShape(e, at, first);
    var k := first + (if run > 3 then 3 else run - 1);
    assert MaskedAt(e, MaskEmail(e), k, at);
  }

  /** `toValueObject`: every field copied as it is, except that the e-mail
      address is masked on request. */
  function ToValueObject(j: Job, obfuscateEmail: bool): (v: JobView)
    ensures v.jobId == j.jobId && v.jobLabel == j.jobLabel && v.status == j.status
    ensures v.running == j.running && v.failed == j.failed && v.complete == j.complete
    ensures v.position == j.position && v.hidden == j.hidden
    ensures v.submittedDate == j.submittedDate && v.startedDate == j.startedDate
    ensures v.finishedDate == j.finishedDate
    ensures v.inputProteinChainIds == j.inputProteinChainIds && v.result == j.result
    ensures v.email == if obfuscateEmail then MaskEmail(j.email) else j.email
  {
    JobView(j.jobId, j.jobLabel, j.status, j.running, j.failed, j.complete, j.position,
            if obfuscateEmail then MaskEmail(j.email) else j.email,
            j.hidden, j.submittedDate, j.startedDate, j.finishedDate, j.inputProteinChainIds, j.result)
  }

  /** Masking is invisible for an address without '@', the empty one included. */
  lemma ToValueObjectUnmaskedWithoutAt(j: Job)
    requires '@' !in j.email
    ensures ToValueObject(j, true) == ToValueObject(j, false)
  {
    MaskEmailWithoutAt(j.email);
  }
}
