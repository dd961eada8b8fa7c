/** Views of the in-flight mirror (`jobQueueMirror`, an insertion-ordered set
    of job ids) and the dense renumbering of waiting jobs done when a job
    starts (`onJobStart`). Job records live in the saved-job map; the mirror
    refers to them by id. */
module Mirror {
  import opened Basics
  import opened Jobs

  /** The three filters the manager applies to the mirror. */
  datatype Sel = Waiting | Running | OwnedBy(owner: Owner)

  predicate Matches(j: Job, sel: Sel) {
    match sel
    case Waiting => !j.running
    case Running => j.running
    case OwnedBy(o) => j.userId == o
  }

  /** Every id of `ids` names a job of `m`. */
  predicate Resolves(m: map<JobId, Job>, ids: seq<JobId>) {
    forall id :: id in ids ==> id in m
  }

  /** The ids of `ids` whose job matches `sel`, in their order in `ids`. */
  function Select(m: map<JobId, Job>, ids: seq<JobId>, sel: Sel): (r: seq<JobId>)
    requires Resolves(m, ids)
    ensures forall x :: x in r <==> x in ids && Matches(m[x], sel)
    ensures |r| <= |ids|
    ensures Distinct(ids) ==> Distinct(r)
  {
    if ids == [] then []
    else
      var init := ids[..|ids| - 1];
      var last := ids[|ids| - 1];
      assert ids == init + [last];
      Select(m, init, sel) + (if Matches(m[last], sel) then [last] else [])
  }

  lemma SelectAppend(m: map<JobId, Job>, ids: seq<JobId>, x: JobId, sel: Sel)
    requires Resolves(m, ids) && x in m
    ensures Select(m, ids + [x], sel) == Select(m, ids, sel) + (if Matches(m[x], sel) then [x] else [])
  {
    assert (ids + [x])[..|ids|] == ids;
  }

  /** The selection depends on nothing but the selected property of each job. */
  lemma {:induction false} SelectAgree(m1: map<JobId, Job>, m2: map<JobId, Job>, ids: seq<JobId>, sel: Sel)
    requires Resolves(m1, ids) && Resolves(m2, ids)
    requires forall id :: id in ids ==> Matches(m1[id], sel) == Matches(m2[id], sel)
    ensures Select(m1, ids, sel) == Select(m2, ids, sel)
    decreases |ids|
  {
    if ids != [] {
      var init := ids[..|ids| - 1];
      assert ids == init + [ids[|ids| - 1]];
      SelectAgree(m1, m2, init, sel);
    }
  }

  /** Replacing one job record changes no selection over ids that either do
      not include it or on which the replacement matches exactly as before. */
  lemma SelectUpdate(m: map<JobId, Job>, ids: seq<JobId>, x: JobId, j: Job, sel: Sel)
    requires Resolves(m, ids) && x in m
    requires x !in ids || Matches(j, sel) == Matches(m[x], sel)
    ensures Select(m[x := j], ids, sel) == Select(m, ids, sel)
  {
    SelectAgree(m, m[x := j], ids, sel);
  }

  /** Numbering a job does not change which jobs wait. */
  lemma NumberKeepsWaiting(m: map<JobId, Job>, ids: seq<JobId>, x: JobId, n: int)
    requires Resolves(m, ids) && x in m
    ensures Select(m[x := Numbered(m[x], n)], ids, Waiting) == Select(m, ids, Waiting)
  {
    SelectUpdate(m, ids, x, Numbered(m[x], n), Waiting);
  }

  /** Removing an id from the mirror removes it from every selection. */
  lemma {:induction false} SelectRemove(m: map<JobId, Job>, ids: seq<JobId>, x: JobId, sel: Sel)
    requires Resolves(m, ids)
    ensures Select(m, Remove(ids, x), sel) == Remove(Select(m, ids, sel), x)
    decreases |ids|
  {
    if ids != [] {
      var init := ids[..|ids| - 1];
      var last := ids[|ids| - 1];
      assert ids == init + [last];
      SelectRemove(m, init, x, sel);
      var tail := if Matches(m[last], sel) then [last] else [];
      assert Select(m, ids, sel) == Select(m, init, sel) + tail;
      var sel0 := Select(m, init, sel);
      RemoveAppend(init, last, x);
      RemoveConcat(sel0, tail, x);
      assert Remove(Select(m, ids, sel), x) == Remove(sel0, x) + Remove(tail, x);
      if last == x {
        assert Remove(tail, x) == [] by {
          if tail != [] {
            RemoveAppend([], last, x);
            assert tail == [] + [last];
          }
        }
        assert Remove(ids, x) == Remove(init, x);
      } else {
        assert Remove(tail, x) == tail;
        assert Remove(ids, x) == Remove(init, x) + [last];
        SelectAppend(m, Remove(init, x), last, sel);
      }
    }
  }

  /** Turning one member of a duplicate-free sequence from not matching into
      matching adds exactly one to the selection. */
  lemma {:induction false} SelectFlipCount(m: map<JobId, Job>, ids: seq<JobId>, x: JobId, j: Job, sel: Sel)
    requires Resolves(m, ids) && Distinct(ids) && x in ids
    requires !Matches(m[x], sel) && Matches(j, sel)
    ensures |Select(m[x := j], ids, sel)| == |Select(m, ids, sel)| + 1
    decreases |ids|
  {
    var init := ids[..|ids| - 1];
    var last := ids[|ids| - 1];
    var m' := m[x := j];
    assert ids == init + [last];
    assert Resolves(m', init) && Resolves(m, init);
    if last == x {
      assert x !in init;
      SelectAgree(m, m', init, sel);
      assert Select(m', ids, sel) == Select(m', init, sel) + [x];
      assert Select(m, ids, sel) == Select(m, init, sel);
    } else {
      SelectFlipCount(m, init, x, j, sel);
      assert m'[last] == m[last];
    }
  }

  // ---------------------------------------------------------------------------
  // Renumbering

  /** Status text of a job waiting at position `n`. */
  function PositionStatus(n: int): string {
    "Position: " + IntToString(n)
  }

  /** A job with its display position and status blanked out: what the
      renumbering must leave alone. */
  function Unnumbered(j: Job): Job {
    j.(position := None, status := "")
  }

  /** The fields the manager's bookkeeping reads besides position and status. */
  predicate SameFlags(j: Job, k: Job) {
    && j.jobId == k.jobId && j.userId == k.userId && j.saved == k.saved
    && j.running == k.running && j.complete == k.complete && j.executionTime == k.executionTime
  }

  /** A waiting job shown at position `n`. */
  function Numbered(j: Job, n: int): Job {
    j.(position := Some(n), status := PositionStatus(n))
  }

  /** The loop of `onJobStart`: walk the mirror in order and give each waiting
      job the next position, counting from `next`. Stated from the back: the
      last id, when waiting, is numbered after all waiting ids before it. */
  function Renumber(m: map<JobId, Job>, ids: seq<JobId>, next: int): (r: map<JobId, Job>)
    requires Resolves(m, ids) && Distinct(ids)
    ensures r.Keys == m.Keys
    ensures forall x :: x in m && (x !in ids || m[x].running) ==> r[x] == m[x]
  {
    if ids == [] then m
    else
      var init := ids[..|ids| - 1];
      var last := ids[|ids| - 1];
      var r0 := Renumber(m, init, next);
      if m[last].running then r0
      else r0[last := Numbered(m[last], next + |Select(m, init, Waiting)|)]
  }

  /** Renumbering changes nothing but positions and status texts, and leaves
      running jobs and jobs outside the walked sequence alone. */
  lemma {:induction false} RenumberFrame(m: map<JobId, Job>, ids: seq<JobId>, next: int, x: JobId)
    requires Resolves(m, ids) && Distinct(ids) && x in m
    ensures Unnumbered(Renumber(m, ids, next)[x]) == Unnumbered(m[x])
    ensures SameFlags(Renumber(m, ids, next)[x], m[x])
    ensures Renumber(m, ids, next)[x].saveExpiredDate == m[x].saveExpiredDate
    ensures x !in ids || m[x].running ==> Renumber(m, ids, next)[x] == m[x]
  {
    if ids != [] {
      var init := ids[..|ids| - 1];
      assert ids == init + [ids[|ids| - 1]];
      RenumberFrame(m, init, next, x);
    }
  }

  /** The waiting jobs of the walked sequence, in order, get the positions
      `next`, `next + 1`, ... with matching status texts. */
  lemma {:induction false} RenumberDense(m: map<JobId, Job>, ids: seq<JobId>, next: int, i: nat)
    requires Resolves(m, ids) && Distinct(ids)
    requires i < |Select(m, ids, Waiting)|
    ensures Renumber(m, ids, next)[Select(m, ids, Waiting)[i]] == Numbered(m[Select(m, ids, Waiting)[i]], next + i)
  {
    var init := ids[..|ids| - 1];
    var last := ids[|ids| - 1];
    assert ids == init + [last];
    var w0 := Select(m, init, Waiting);
    assert Select(m, ids, Waiting) == w0 + (if m[last].running then [] else [last]);
    if i < |w0| {
      RenumberDense(m, init, next, i);
      assert w0[i] in init;
    }
  }

  /** The whole waiting selection is numbered densely from `next`. */
  lemma RenumberAllDense(m: map<JobId, Job>, ids: seq<JobId>, next: int)
    requires Resolves(m, ids) && Distinct(ids)
    ensures var w := Select(m, ids, Waiting);
      forall i :: 0 <= i < |w| ==>
        Renumber(m, ids, next)[w[i]].position == Some(next + i) && Renumber(m, ids, next)[w[i]].status == PositionStatus(next + i)
  {
    var w := Select(m, ids, Waiting);
    forall i | 0 <= i < |w|
      ensures Renumber(m, ids, next)[w[i]] == Numbered(m[w[i]], next + i)
    {
      RenumberDense(m, ids, next, i);
    }
  }
}
