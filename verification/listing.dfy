/** The order of the public job listing:
      1. position ascending, absent positions last;
      2. then submission date through `nullsLast(Date::compareTo).reversed()`,
         which puts absent dates first and then the newest first;
      3. then status text through `String::compareToIgnoreCase`.
    Comparators return only their sign here; sorting depends on nothing else. */
module Listing {
  import opened Basics
  import opened Jobs

  /** `Comparator.nullsLast(Integer::compareTo)`. */
  function PositionCmp(p: Option<int>, q: Option<int>): (c: int)
    ensures -1 <= c <= 1
  {
    match (p, q)
    case (None, None) => 0
    case (None, Some(_)) => 1
    case (Some(_), None) => -1
    case (Some(x), Some(y)) => Sign(x - y)
  }

  /** `Comparator.nullsLast(Date::compareTo).reversed()`. */
  function DateCmp(d: Option<int>, e: Option<int>): (c: int)
    ensures -1 <= c <= 1
  {
    -PositionCmp(d, e)
  }

  /** `String.compareToIgnoreCase` on ASCII letters: the first differing
      lower-cased character decides; otherwise the shorter string is first. */
  function IgnoreCaseCmp(s: string, t: string): (c: int)
    ensures -1 <= c <= 1
  {
    if |s| == 0 || |t| == 0 then Sign(|s| - |t|)
    else if LowerAscii(s[0]) != LowerAscii(t[0]) then Sign(LowerAscii(s[0]) as int - LowerAscii(t[0]) as int)
    else IgnoreCaseCmp(s[1..], t[1..])
  }

  /** The three keys combined with `thenComparing`: a smaller position
      first and a present position before an absent one; on equal
      positions, an absent date first and then the newer date; on equal
      dates, the status texts ignoring case. */
  function Compare(a: JobView, b: JobView): (c: int)
    ensures -1 <= c <= 1
    ensures a.position.Some? && b.position.None? ==> c < 0
    ensures a.position.Some? && b.position.Some? && a.position.value < b.position.value ==> c < 0
    ensures a.position == b.position && a.submittedDate.None? && b.submittedDate.Some? ==> c < 0
    ensures a.position == b.position && a.submittedDate.Some? && b.submittedDate.Some? && a.submittedDate.value > b.submittedDate.value ==> c < 0
    ensures a.position == b.position && a.submittedDate == b.submittedDate ==> c == IgnoreCaseCmp(a.status, b.status)
  {
    var byPosition := PositionCmp(a.position, b.position);
    if byPosition != 0 then byPosition
    else
      var byDate := DateCmp(a.submittedDate, b.submittedDate);
      if byDate != 0 then byDate else IgnoreCaseCmp(a.status, b.status)
  }

  /** `a` may precede `b` in the listing. */
  predicate Before(a: JobView, b: JobView) {
    Compare(a, b) <= 0
  }

  predicate Sorted(r: seq<JobView>) {
    forall i, j :: 0 <= i < j < |r| ==> Before(r[i], r[j])
  }

  /** No job appears twice (`distinct()` compares jobs by id). */
  predicate DistinctIds(r: seq<JobView>) {
    forall i, j :: 0 <= i < j < |r| ==> r[i].jobId != r[j].jobId
  }

  // ---------------------------------------------------------------------------
  // The comparator is a total preorder

  lemma PositionCmpProperties(p: Option<int>, q: Option<int>, u: Option<int>)
    ensures PositionCmp(p, q) == -PositionCmp(q, p)
    ensures PositionCmp(p, q) <= 0 && PositionCmp(q, u) <= 0 ==> PositionCmp(p, u) <= 0
  {
  }

  lemma {:induction false} IgnoreCaseAntisymmetric(s: string, t: string)
    ensures IgnoreCaseCmp(s, t) == -IgnoreCaseCmp(t, s)
  {
    if |s| > 0 && |t| > 0 && LowerAscii(s[0]) == LowerAscii(t[0]) {
      IgnoreCaseAntisymmetric(s[1..], t[1..]);
    }
  }

  lemma {:induction false} IgnoreCaseTransitive(s: string, t: string, u: string)
    requires IgnoreCaseCmp(s, t) <= 0 && IgnoreCaseCmp(t, u) <= 0
    ensures IgnoreCaseCmp(s, u) <= 0
  {
    if |s| > 0 && |t| > 0 && |u| > 0 {
      var a, b, c := LowerAscii(s[0]), LowerAscii(t[0]), LowerAscii(u[0]);
      if a == b && b == c {
        IgnoreCaseTransitive(s[1..], t[1..], u[1..]);
      }
    }
  }

  /** Swapping the arguments flips the sign: any two views are ordered one
      way or the other. */
  lemma CompareAntisymmetric(a: JobView, b: JobView)
    ensures Compare(a, b) == -Compare(b, a)
  {
    PositionCmpProperties(a.position, b.position, b.position);
    PositionCmpProperties(a.submittedDate, b.submittedDate, b.submittedDate);
    IgnoreCaseAntisymmetric(a.status, b.status);
  }

  lemma CompareTransitive(a: JobView, b: JobView, c: JobView)
    requires Before(a, b) && Before(b, c)
    ensures Before(a, c)
  {
    PositionCmpProperties(a.position, b.position, c.position);
    PositionCmpProperties(b.position, c.position, a.position);
    PositionCmpProperties(c.position, a.position, b.position);
    PositionCmpProperties(a.submittedDate, b.submittedDate, c.submittedDate);
    PositionCmpProperties(b.submittedDate, c.submittedDate, a.submittedDate);
    PositionCmpProperties(c.submittedDate, a.submittedDate, b.submittedDate);
    if PositionCmp(a.position, b.position) == 0 && PositionCmp(b.position, c.position) == 0
      && DateCmp(a.submittedDate, b.submittedDate) == 0 && DateCmp(b.submittedDate, c.submittedDate) == 0
    {
      IgnoreCaseTransitive(a.status, b.status, c.status);
    }
  }

  // ---------------------------------------------------------------------------
  // Sorted insertion

  /** The first index whose view `v` may precede, or the end. */
  function InsertionPoint(r: seq<JobView>, v: JobView): (k: nat)
    ensures k <= |r|
    ensures forall i :: 0 <= i < k ==> !Before(v, r[i])
    ensures k < |r| ==> Before(v, r[k])
  {
    if r == [] then 0
    else if Before(v, r[0]) then 0
    else 1 + InsertionPoint(r[1..], v)
  }

  function Insert(r: seq<JobView>, v: JobView): seq<JobView> {
    var k := InsertionPoint(r, v);
    r[..k] + [v] + r[k..]
  }

  /** Insertion adds exactly the new view. */
  lemma InsertMembers(r: seq<JobView>, v: JobView)
    ensures |Insert(r, v)| == |r| + 1
    ensures forall x :: x in Insert(r, v) <==> x in r || x == v
  {
    var k := InsertionPoint(r, v);
    assert r == r[..k] + r[k..];
  }

  /** Inserting at the insertion point keeps a sorted sequence sorted. */
  lemma InsertSorted(r: seq<JobView>, v: JobView)
    requires Sorted(r)
    ensures Sorted(Insert(r, v))
  {
    var k := InsertionPoint(r, v);
    var r' := Insert(r, v);
    assert forall i :: 0 <= i < k ==> r'[i] == r[i];
    assert r'[k] == v;
    assert forall i :: k < i < |r'| ==> r'[i] == r[i - 1];
    forall i | 0 <= i < k
      ensures Before(r[i], v)
    {
      CompareAntisymmetric(v, r[i]);
    }
    forall i | k <= i < |r|
      ensures Before(v, r[i])
    {
      if i > k {
        CompareTransitive(v, r[k], r[i]);
      }
    }
    forall i, j | 0 <= i < j < |r'|
      ensures Before(r'[i], r'[j])
    {
      if i < k && j == k {
      } else if i < k && j > k {
        CompareTransitive(r[i], v, r[j - 1]);
      }
    }
  }

  /** Inserting a view of a job not yet listed keeps every job listed once. */
  lemma InsertDistinct(r: seq<JobView>, v: JobView)
    requires DistinctIds(r)
    requires forall i :: 0 <= i < |r| ==> r[i].jobId != v.jobId
    ensures DistinctIds(Insert(r, v))
  {
    var k := InsertionPoint(r, v);
    var r' := Insert(r, v);
    assert forall i :: 0 <= i < k ==> r'[i] == r[i];
    assert r'[k] == v;
    assert forall i :: k < i < |r'| ==> r'[i] == r[i - 1];
  }
}
