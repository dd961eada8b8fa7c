# IDRBind job manager in Dafny

A verified model of the job admission and queueing core of IDRBind, a web
service that runs a protein binding-site predictor on submitted structures.
The model covers three classes:

- **`JobManager`**:
  - per-owner waiting lines (`userQueues`);
  - the in-flight mirror of the executor's queue (`jobQueueMirror`, an insertion-ordered set);
  - the saved-job map with expiry stamps;
  - the events that move jobs between them.
- **`IDRBindJob`**: the lifecycle of `call()`, equality by id, and the value object with its e-mail mask.
- **`PurgeOldJobs`**: the periodic sweep of expired saved jobs.

Threads, locks and the executor become atomic events on one immutable
`State`. The events are:

- submit;
- start of the next waiting job, taken when a pool thread is free;
- finish with a given run outcome;
- read of a saved job at time `now`;
- sweep at time `now`;
- listing.

Job records live in the saved-job map only. The lines and the mirror refer to
them by id. This matches the source's shared mutable objects, because a job
enters its owner's line and the saved-job map in the same step
(`JobManager.java:191-194`), inside one `synchronized` block on that line.

Files:

- `basics.dfy`: option type, Java `int` wrap-around, decimal rendering, blank test, sequence helpers.
- `jobs.dfy`: the job record, `call()`'s start and finish, `equals`, `toValueObject` and the e-mail mask.
- `purge.dfy`: the sweep as a function and as the source's iterator loop.
- `listing.dfy`: the three-key listing comparator, its laws, and sorted insertion.
- `mirror.dfy`: filtered views of the mirror and the dense renumbering done at job start.
- `manager.dfy`: the manager state and its operations.
- `invariants.dfy`: the manager invariant, and why a dispatch attempt keeps it.
- `events.dfy`: why submit, start, read, sweep and finish keep the invariant.
- `properties.dfy`:
  - per-owner first-in first-out order;
  - outcome-independent completion;
  - submission case by case;
  - the event machine, whose reachable states all satisfy the invariant.

The invariant (`Invariants.Valid`) has three kinds of conjunct.

Structural:

- every queued or mirrored id names a saved job;
- lines hold each id once, with at most `userJobLimit + 1` ids;
- line jobs are "Pending" and outside the mirror;
- mirror jobs are unfinished;
- running jobs show position 0;
- waiting jobs are numbered 1..K in mirror order;
- complete saved jobs carry an expiry stamp.

Capacity:

- no owner has more than `userProcessLimit` mirror jobs;
- no more than `concurrentJobs` jobs run.

Saturation: an owner with a non-empty line has its full share of the mirror.

The model keeps these behaviours of the code:

- a submission to an over-full line is dropped silently, and `submit` still returns "";
- the limit test is `size() > userJobLimit`, so a line can hold `userJobLimit + 1` jobs;
- running jobs show position 0 rather than none;
- waiting jobs are renumbered only when a job starts;
- entering the mirror is not gated by a free pool thread;
- the retention `purgeAfterHours * 60 * 60 * 1000` is computed in 32-bit `int`. It wraps to a negative value from 597 to 1193 hours, and back to a positive one at 1194 hours.

## Model

| member | source | states |
|---|---|---|
| Basics.Wrap32 | src/main/java/com/jacobsonmt/idrbind/services/JobManager.java:255 | the value of a Java `int` expression: always in the 32-bit range, congruent to the mathematical value modulo 2^32, and equal to it when it fits |
| Basics.IntToStringInjective | src/main/java/com/jacobsonmt/idrbind/services/JobManager.java:172 | the decimal rendering used in "Position: N" and in the completion status is injective, so the text determines the number |
| Basics.IntToStringSign | src/main/java/com/jacobsonmt/idrbind/services/JobManager.java:172 | the rendering starts with '-' exactly for negative numbers and otherwise is the plain digits of the magnitude |
| Basics.ParseNatToString | src/main/java/com/jacobsonmt/idrbind/services/JobManager.java:172 | reading the rendered digits back gives the number rendered |
| Basics.Remove | src/main/java/com/jacobsonmt/idrbind/services/JobManager.java:307 | `LinkedHashSet.remove`: removes exactly the given id, keeps the rest in order, keeps a duplicate-free sequence duplicate-free and shortens it by one when the id was present |
| Basics.RemoveConcat | src/main/java/com/jacobsonmt/idrbind/services/JobManager.java:307 | removing an id from a concatenation removes it from each part |
| Jobs.Begin | src/main/java/com/jacobsonmt/idrbind/model/IDRBindJob.java:73-78 | a started job is running with position 0 and status "Processing", stamped with the start time, its submission fields and completion flags untouched |
| Jobs.Execute | src/main/java/com/jacobsonmt/idrbind/model/IDRBindJob.java:80-127 | after the guarded block the job is complete and not running; it is failed exactly when it already was or the run did not get through (inputs, outputs and snapshot); on success it carries the outputs and "Completed in Xs" with X the elapsed milliseconds divided by 1000; otherwise an empty result and "Failed after Xs" with the last recorded execution time |
| Jobs.CommandErrorSwallowed | src/main/java/com/jacobsonmt/idrbind/model/IDRBindJob.java:136-155 | the external program's exit status has no effect on the job |
| Jobs.SnapshotFailureFailsJob | src/main/java/com/jacobsonmt/idrbind/model/IDRBindJob.java:113-126 | a snapshot that cannot be written after a successful run leaves a failed job with an empty result and the elapsed time in its status |
| Jobs.EarlyFailureReportsZero | src/main/java/com/jacobsonmt/idrbind/model/IDRBindJob.java:119-126 | a job that has run for no recorded time and fails before its inputs are written is failed with "Failed after 0s" |
| Jobs.LifecyclePreservesIdentity | src/main/java/com/jacobsonmt/idrbind/model/IDRBindJob.java:21 | equality is by job id only: starting and finishing leave a job equal to itself and to exactly the jobs it was equal to |
| Jobs.LastIndexOf | src/main/java/com/jacobsonmt/idrbind/model/IDRBindJob.java:191 | the index of the last occurrence of a character, absent exactly when the character does not occur (the greedy `(@.*)` group starts at the last '@') |
| Jobs.FirstWordIndex | src/main/java/com/jacobsonmt/idrbind/model/IDRBindJob.java:191 | the first word character from a starting index, or none, where the mask's match can begin |
| Jobs.WordRun | src/main/java/com/jacobsonmt/idrbind/model/IDRBindJob.java:191 | the maximal run of word characters starting at an index |
| Jobs.MaskEmailWithoutAt | src/main/java/com/jacobsonmt/idrbind/model/IDRBindJob.java:191 | an address without '@' is left as it is by the mask |
| Jobs.MaskEmailKeepsDomain | src/main/java/com/jacobsonmt/idrbind/model/IDRBindJob.java:191 | an address with a word character before its last '@' becomes a prefix `e[..k]` of itself with `k` before that '@', then four stars, then the domain from the last '@' on |
| Jobs.MaskEmailPrefix | src/main/java/com/jacobsonmt/idrbind/model/IDRBindJob.java:191 | when the first word run ends before the last '@', the mask keeps a prefix `e[..k]` ending before that '@', then four stars, then the domain |
| Jobs.ToValueObject | src/main/java/com/jacobsonmt/idrbind/model/IDRBindJob.java:189-193 | the value object copies every field of the job, and the e-mail address is masked exactly when obfuscation is requested |
| Jobs.ToValueObjectUnmaskedWithoutAt | src/main/java/com/jacobsonmt/idrbind/model/IDRBindJob.java:189-193 | obfuscation has no effect on a job whose address has no '@', the empty address included |
| Jobs.MaskEmail | src/main/java/com/jacobsonmt/idrbind/model/IDRBindJob.java:191 | the mask leaves an address without '@' unchanged; any other result is a prefix of the address ending before its last '@', four stars, and the domain from that '@' on |
| Purge.Sweep | src/main/java/com/jacobsonmt/idrbind/model/PurgeOldJobs.java:15-27 | the surviving map holds exactly the entries that are not complete-and-strictly-past-expiry, each unchanged, and keeps the stamped-when-complete property |
| Purge.PurgeOldJobs | src/main/java/com/jacobsonmt/idrbind/model/PurgeOldJobs.java:15-27 | one iterator pass removes exactly the expired entries, leaves the others unchanged, leaves each removed job unsaved with no expiry, and agrees with the sweep |
| Purge.SweepStep | src/main/java/com/jacobsonmt/idrbind/model/PurgeOldJobs.java:17-25 | visiting one entry keeps the sweep consistent: an expired entry moves from the kept map to the evicted one, any other stays |
| Purge.SweepUnique | src/main/java/com/jacobsonmt/idrbind/model/PurgeOldJobs.java:17-25 | any map keeping exactly the unexpired entries unchanged is the sweep's result |
| Purge.Evict | src/main/java/com/jacobsonmt/idrbind/model/PurgeOldJobs.java:21-22 | a removed job is no longer saved and has no expiry stamp, and it equals the original job in every other field |
| Purge.Expired | src/main/java/com/jacobsonmt/idrbind/model/PurgeOldJobs.java:20 | a job is due for removal only when it is complete and stamped, never at or before its expiry instant, and always once strictly past it |
| Purge.SweepIdempotent | src/main/java/com/jacobsonmt/idrbind/model/PurgeOldJobs.java:16-26 | sweeping twice at the same instant gives the map of a single sweep |
| Purge.SweepKeeps | src/main/java/com/jacobsonmt/idrbind/model/PurgeOldJobs.java:20 | an unfinished job survives whatever its stamp, and a job whose stamp equals the current time survives (the test is strict) |
| Purge.SweepMonotone | src/main/java/com/jacobsonmt/idrbind/model/PurgeOldJobs.java:20 | a later sweep keeps no entry an earlier sweep removes |
| Listing.IgnoreCaseAntisymmetric | src/main/java/com/jacobsonmt/idrbind/services/JobManager.java:323 | case-insensitive comparison of status texts flips sign when its arguments are swapped |
| Listing.IgnoreCaseTransitive | src/main/java/com/jacobsonmt/idrbind/services/JobManager.java:323 | case-insensitive comparison of status texts is transitive |
| Listing.Compare | src/main/java/com/jacobsonmt/idrbind/services/JobManager.java:320-324 | the listing order: a job with a position before one without, smaller positions first, then an unset submission date first, then later submission dates first, then case-insensitive status order |
| Listing.CompareAntisymmetric | src/main/java/com/jacobsonmt/idrbind/services/JobManager.java:320-324 | the three-key comparator flips sign when its arguments are swapped, so any two views are ordered one way or the other |
| Listing.CompareTransitive | src/main/java/com/jacobsonmt/idrbind/services/JobManager.java:320-324 | the three-key comparator is transitive |
| Listing.InsertionPoint | src/main/java/com/jacobsonmt/idrbind/services/JobManager.java:320-324 | the insertion point has only views the new one may not precede before it, and one it may precede at it |
| Listing.InsertMembers | src/main/java/com/jacobsonmt/idrbind/services/JobManager.java:320-324 | sorted insertion adds exactly the new view |
| Listing.InsertSorted | src/main/java/com/jacobsonmt/idrbind/services/JobManager.java:320-324 | sorted insertion keeps a sorted list sorted |
| Listing.InsertDistinct | src/main/java/com/jacobsonmt/idrbind/services/JobManager.java:317 | inserting a view of a job not yet listed keeps every job listed once |
| Manager.Init | src/main/java/com/jacobsonmt/idrbind/services/JobManager.java:44-50 | the manager starts with no lines, an empty mirror and no saved jobs |
| Manager.CreateJob | src/main/java/com/jacobsonmt/idrbind/services/JobManager.java:130-163 | a new job has every lifecycle field at its default and an empty status, the given inputs, and the given label unless it is blank, in which case it is "unnamed"; the label is never blank |
| Manager.RetentionMillis | src/main/java/com/jacobsonmt/idrbind/services/JobManager.java:255 | the retention `purgeAfterHours * 60 * 60 * 1000` in 32-bit `int` arithmetic: exact up to 596 hours, negative (wrapped) from 597 to 1193 hours |
| Manager.SubmitToProcessQueue | src/main/java/com/jacobsonmt/idrbind/services/JobManager.java:165-177 | the job is attached and added to the mirror once, no line and no other record changes, and it shows the count of waiting mirror jobs after the insertion as its position and in "Position: N" |
| Manager.Attach | src/main/java/com/jacobsonmt/idrbind/services/JobManager.java:168-170 | the job gets its manager reference and joins the back of the mirror unless already there |
| Manager.PopHead | src/main/java/com/jacobsonmt/idrbind/services/JobManager.java:213-220 | the head leaves its owner's line and is stamped with the submission time; nothing else changes |
| Manager.Dispatch | src/main/java/com/jacobsonmt/idrbind/services/JobManager.java:209-223 | the owner's head leaves the line, enters the mirror and is numbered after the waiting jobs; no other record changes |
| Manager.TryDispatch | src/main/java/com/jacobsonmt/idrbind/services/JobManager.java:200-225 | a dispatch attempt changes nothing unless the owner has fewer mirror jobs than `userProcessLimit` and a non-empty line; then exactly the head moves from the line into the mirror, stamped and numbered |
| Manager.SaveJob | src/main/java/com/jacobsonmt/idrbind/services/JobManager.java:260-265 | the job is stored under its id, marked saved, and no other entry changes |
| Manager.WithQueue | src/main/java/com/jacobsonmt/idrbind/services/JobManager.java:182 | `computeIfAbsent` creates an empty line for the owner and changes no line's contents |
| Manager.Enqueue | src/main/java/com/jacobsonmt/idrbind/services/JobManager.java:191-195 | an admitted job is appended to the end of its owner's line with status "Pending" and saved; no other line and not the mirror changes |
| Manager.SubmitToUserQueue | src/main/java/com/jacobsonmt/idrbind/services/JobManager.java:179-198 | a line holding more than `userJobLimit` jobs, or already holding the job's id, drops the submission (only the empty line is created); otherwise the job is enqueued and then one dispatch attempt is made for its owner |
| Manager.Submit | src/main/java/com/jacobsonmt/idrbind/services/JobManager.java:227-249 | an invalid job (blank PDB, FASTA or chain ids) is marked complete and failed with "Validation Failed", returned as the message, and the manager is unchanged; a valid job gets the empty message and the manager becomes the result of `submitToUserQueue`; an admitted job is returned as the record the manager now stores, and a dropped or duplicate one is returned as given |
| Manager.ValidateJob | src/main/java/com/jacobsonmt/idrbind/services/JobManager.java:267-271 | a job is valid exactly when its PDB content, FASTA content and chain ids each hold a non-whitespace character, so none of them is empty |
| Manager.StartNext | src/main/java/com/jacobsonmt/idrbind/services/JobManager.java:273-293 | a job starts only while fewer than `concurrentJobs` run and one waits; the first waiting mirror job is begun; mirror and lines are unchanged |
| Manager.Depart | src/main/java/com/jacobsonmt/idrbind/services/JobManager.java:296-308 | the finished job gets an expiry stamp and no position and leaves the mirror, which otherwise keeps its order |
| Manager.OnJobComplete | src/main/java/com/jacobsonmt/idrbind/services/JobManager.java:295-313 | completion touches no other owner's line and removes at most the head of the finished job's owner's line; a job outside its line leaves the mirror with an expiry stamp, no position and its record otherwise as it was |
| Manager.Finish | src/main/java/com/jacobsonmt/idrbind/model/IDRBindJob.java:95-131 | a call that cannot finish changes nothing; a finishing job touches at most the head of its owner's line and no other line, and leaves the mirror with the outcome of its run, an expiry stamp, no position and no manager reference |
| Manager.GetSavedJob | src/main/java/com/jacobsonmt/idrbind/services/JobManager.java:251-258 | an unknown id yields nothing and changes nothing; a known job gets the expiry `now` plus the retention and is returned with it |
| Manager.PurgeJobs | src/main/java/com/jacobsonmt/idrbind/model/PurgeOldJobs.java:15-27 | the sweep in the manager: only the saved-job map changes, keeping exactly the unexpired entries unchanged |
| Manager.PublicIds | src/main/java/com/jacobsonmt/idrbind/services/JobManager.java:316-318 | the ids of mirror or saved jobs that are not hidden, each once |
| Manager.IdsOfCount | src/main/java/com/jacobsonmt/idrbind/services/JobManager.java:317 | a list without repeated ids lists as many ids as it has entries |
| Manager.ListStep | src/main/java/com/jacobsonmt/idrbind/services/JobManager.java:316-323 | adding a further job by sorted insertion keeps the list sorted, duplicate-free and made of masked value objects |
| Manager.ListIds | src/main/java/com/jacobsonmt/idrbind/services/JobManager.java:316-324 | the listing loop yields a sorted list holding the masked value object of each given job exactly once |
| Manager.ListPublicJobs | src/main/java/com/jacobsonmt/idrbind/services/JobManager.java:315-326 | the listing is sorted by position (absent last), then submission date (absent first, then newest first), then status ignoring case; it holds every public job exactly once, as its masked value object, and nothing else |
| Manager.ListedAll | src/main/java/com/jacobsonmt/idrbind/services/JobManager.java:315-326 | a sorted duplicate-free list of as many views as public jobs, each a public job's view, lists every public job |
| Mirror.Select | src/main/java/com/jacobsonmt/idrbind/services/JobManager.java:171 | the mirror filtered by a predicate (waiting, running, owner), in mirror order: exactly the ids whose job matches |
| Mirror.SelectAgree | src/main/java/com/jacobsonmt/idrbind/services/JobManager.java:201-207 | a filter depends on nothing but the filtered property of each job |
| Mirror.SelectRemove | src/main/java/com/jacobsonmt/idrbind/services/JobManager.java:307 | removing an id from the mirror removes it from every filtered view |
| Mirror.SelectFlipCount | src/main/java/com/jacobsonmt/idrbind/services/JobManager.java:283-291 | a job that starts running adds exactly one to the running count |
| Mirror.Renumber | src/main/java/com/jacobsonmt/idrbind/services/JobManager.java:283-292 | renumbering keeps the stored ids and leaves every job outside the mirror, and every running mirror job, exactly as it was |
| Mirror.RenumberFrame | src/main/java/com/jacobsonmt/idrbind/services/JobManager.java:283-292 | renumbering touches only the position and status of waiting jobs of the mirror |
| Mirror.RenumberDense | src/main/java/com/jacobsonmt/idrbind/services/JobManager.java:283-292 | the i-th waiting mirror job gets position `next + i` and the matching "Position: N" status |
| Mirror.RenumberAllDense | src/main/java/com/jacobsonmt/idrbind/services/JobManager.java:283-292 | every waiting mirror job is numbered densely from `next` in mirror order |
| Invariants.InitValid | src/main/java/com/jacobsonmt/idrbind/services/JobManager.java:44-50 | the empty manager satisfies the invariant |
| Invariants.DispatchSelect | src/main/java/com/jacobsonmt/idrbind/services/JobManager.java:209-223 | a dispatch puts the head at the end of the mirror and of every filter it matches, and changes no other filter |
| Invariants.DispatchNumbered | src/main/java/com/jacobsonmt/idrbind/services/JobManager.java:170-172 | the dispatched job is numbered one past the waiting jobs already in the mirror, and the waiting order gains it at the end |
| Invariants.DispatchDense | src/main/java/com/jacobsonmt/idrbind/services/JobManager.java:165-177 | entering the mirror keeps the waiting jobs numbered 1..K in mirror order |
| Invariants.DispatchOwners | src/main/java/com/jacobsonmt/idrbind/services/JobManager.java:201-209 | a dispatch adds one to its owner's mirror count and nothing to any other owner's |
| Invariants.DispatchCaps | src/main/java/com/jacobsonmt/idrbind/services/JobManager.java:201-209 | a dispatch keeps every owner within `userProcessLimit` mirror jobs and the running count within `concurrentJobs` |
| Invariants.DispatchCore | src/main/java/com/jacobsonmt/idrbind/services/JobManager.java:200-225 | a dispatch attempt keeps the core invariant |
| Invariants.DispatchValid | src/main/java/com/jacobsonmt/idrbind/services/JobManager.java:200-225 | a dispatch attempt from a state in which only the owner may lack one job restores the whole invariant |
| Invariants.DispatchCounts | src/main/java/com/jacobsonmt/idrbind/services/JobManager.java:200-225 | an attempt shortens only the owner's line, by its head, exactly when it dispatches, and adds one to that owner's count only |
| Events.SubmitValid | src/main/java/com/jacobsonmt/idrbind/services/JobManager.java:227-249 | submitting a freshly created job keeps the invariant |
| Events.StartWaiting | src/main/java/com/jacobsonmt/idrbind/services/JobManager.java:283-292 | after a start the waiting jobs are those before it minus the job that began, in mirror order |
| Events.StartDense | src/main/java/com/jacobsonmt/idrbind/services/JobManager.java:283-292 | after a start the waiting jobs are numbered 1..K in mirror order |
| Events.StartCaps | src/main/java/com/jacobsonmt/idrbind/services/JobManager.java:58 | a start adds one running job, never past `concurrentJobs`, and changes no owner's mirror count |
| Events.StartValid | src/main/java/com/jacobsonmt/idrbind/services/JobManager.java:273-293 | starting a job keeps the invariant |
| Events.GetSavedJobValid | src/main/java/com/jacobsonmt/idrbind/services/JobManager.java:251-258 | reading a saved job keeps the invariant |
| Events.PurgeValid | src/main/java/com/jacobsonmt/idrbind/model/PurgeOldJobs.java:15-27 | a sweep never removes a job that waits in a line or sits in the mirror, so it keeps the invariant |
| Events.FinishValid | src/main/java/com/jacobsonmt/idrbind/services/JobManager.java:295-313 | a finish, successful or failed, keeps the invariant |
| Events.FinishThrough | src/main/java/com/jacobsonmt/idrbind/services/JobManager.java:305-311 | a finish is the run applied to the record, then the departure from the mirror, then one dispatch attempt for the owner, then dropping the manager reference |
| Properties.DispatchKeepsLine | src/main/java/com/jacobsonmt/idrbind/services/JobManager.java:200-225 | a dispatch attempt moves the head of the owner's line to the back of the owner's mirror jobs: no owner's first-in first-out order changes |
| Properties.EnqueueLine | src/main/java/com/jacobsonmt/idrbind/services/JobManager.java:191-195 | an enqueued job goes to the end of its owner's order |
| Properties.SubmitLine | src/main/java/com/jacobsonmt/idrbind/services/JobManager.java:179-198 | an accepted submission appends the job to its owner's order; a rejected or dropped one changes no order |
| Properties.StartLine | src/main/java/com/jacobsonmt/idrbind/services/JobManager.java:273-293 | starting a job changes no owner's order |
| Properties.DepartLine | src/main/java/com/jacobsonmt/idrbind/services/JobManager.java:305-307 | leaving the mirror removes the finished job from its owner's order, and nothing else |
| Properties.FinishLine | src/main/java/com/jacobsonmt/idrbind/services/JobManager.java:295-313 | finishing removes exactly the finished job from its owner's order, and the dispatch it triggers keeps every order |
| Properties.ReadKeepsLine | src/main/java/com/jacobsonmt/idrbind/services/JobManager.java:251-258 | reading a saved job changes no owner's order |
| Properties.PurgeKeepsLine | src/main/java/com/jacobsonmt/idrbind/model/PurgeOldJobs.java:15-27 | a sweep changes no owner's order |
| Properties.DispatchAgree | src/main/java/com/jacobsonmt/idrbind/services/JobManager.java:311 | two states differing only in the finished job's record dispatch alike |
| Properties.FinishBookkeeping | src/main/java/com/jacobsonmt/idrbind/services/JobManager.java:295-313 | completion does the same bookkeeping whether the job succeeded or failed: the same mirror, lines and other records afterwards |
| Properties.FinishRecord | src/main/java/com/jacobsonmt/idrbind/model/IDRBindJob.java:130-131 | the finished job is out of the mirror with the outcome of its run, an expiry stamp, no position and no manager reference |
| Properties.FinishEarlyFailureReportsZero | src/main/java/com/jacobsonmt/idrbind/model/IDRBindJob.java:119-131 | in any valid manager, a running job whose inputs were never written finishes failed and complete with "Failed after 0s" |
| Properties.SubmitDropsWhenFull | src/main/java/com/jacobsonmt/idrbind/services/JobManager.java:184-187 | a valid job for a line holding more than `userJobLimit` jobs is neither queued nor saved, and the caller still gets "" |
| Properties.LineCanExceedLimit | src/main/java/com/jacobsonmt/idrbind/services/JobManager.java:184 | a line holding exactly `userJobLimit` jobs admits one more, so a line can hold `userJobLimit + 1` |
| Properties.SubmitAccepted | src/main/java/com/jacobsonmt/idrbind/services/JobManager.java:191-196 | an accepted job is saved, joins the end of its owner's order, and either waits in the line as "Pending" or has entered the mirror |
| Properties.GetSavedJobCases | src/main/java/com/jacobsonmt/idrbind/services/JobManager.java:251-258 | an unknown id changes nothing; the expiry is exact up to 596 hours of retention and lies in the past from 597 to 1193 hours because of the `int` overflow |
| Properties.ReachableValid | src/main/java/com/jacobsonmt/idrbind/services/JobManager.java:200-225 | every reachable state satisfies the invariant: no owner has more than `userProcessLimit` jobs in the mirror and no more than `concurrentJobs` jobs run |

## Left out

- Startup reload of finished jobs from disk (`JobManager.java` lines 66-119), object serialisation, file writes and reads, and `Runtime.exec`: these are I/O. One run's effect is a `RunOutcome` value with five parts:
  - inputs written;
  - program exit status;
  - elapsed time;
  - outputs readable;
  - snapshot written.
- E-mail notifications on submission, start and completion: the sending is I/O, and every event here behaves as if the mail call returned normally.
  - The source catches only `MessagingException` and `MailSendException` (`JobManager.java` lines 241, 277, 300).
  - Any other `MailException` escapes. From `onJobComplete` (line 299) it would skip the position reset, the mirror removal and the next dispatch, leaving a finished job in the mirror. That path is not modelled.
- Threads, `synchronized` blocks, the executor and the scheduled purge: modelled as atomic sequential events.
  - The executor is a FIFO pool. It starts the first waiting mirror job while fewer than `concurrentJobs` run.
  - Two races are not modelled:
    - A sweep can see a complete job before its expiry is stamped. Instead, "complete implies stamped" is an invariant.
    - Between `running = false` (`IDRBindJob.java` lines 110 and 124) and the mirror removal (`JobManager.java` line 307), a concurrent `onJobStart` renumbers the finished job as waiting. That overwrites its "Completed in Xs" status with "Position: N". Here a finish is atomic, so this never happens.
- UUID generation and the wall clock: the job id and `now` are parameters. The event machine requires a submitted job to be fresh and its id new.
- Settings and the purge schedule (`ApplicationSettings.java`): the limits are fields of `Config`.
  - `userProcessLimit` and `concurrentJobs` are taken as non-negative.
  - The purge interval is not modelled: a sweep is an event.
- The job's static resources (command, directories, file names): used only by the I/O above.
- The `long` addition `now + retention`: modelled as unbounded, with no 64-bit overflow.
- Null strings: inputs, label and e-mail are never null here. A null status is the empty text.
- `Jobs.MaskEmail`:
  - word characters are ASCII `\w`;
  - the address is a single line, with no line-terminator handling of `.`;
  - beyond the no-'@' case and the located-groups case, no property is stated about it.
- `Basics.IsBlank` and `Listing.IgnoreCaseCmp`: ASCII whitespace and ASCII case folding only, not the full Unicode tables.
- `Manager.ListPublicJobs`: the order of jobs that compare equal is not stated. The source's stable sort keeps them in stream order.
- The controllers, REST endpoint and `Messages` are not part of this model.
