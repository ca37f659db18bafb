/** The windowed-dominance scan of DriverIRIC.getDominatedPeriod.
 *
 *  Two series of cumulative match counts are compared period by period.
 *  A period "dominates" when the dominator's count is at least the
 *  dominatee's (ties count).  The scan looks for the first period that
 *  closes a run of `w` consecutive dominating periods and reports the index
 *  just BEFORE that run (end - w), or -1 when no such run exists.
 */
module Dominance {

  datatype Option<T> = None | Some(value: T)

  /** What the scan yields: a period index (possibly -1), or the index at which
   *  reading the dominatee series fails because it is shorter than the
   *  dominator series (Java's IndexOutOfBoundsException). */
  datatype Outcome = Period(p: int) | IndexOutOfBounds(index: nat)

  /** Period t exists in both series and the dominator is at least the dominatee there. */
  predicate DominatesAt(a: seq<int>, b: seq<int>, t: int)
  {
    0 <= t < |a| && t < |b| && a[t] >= b[t]
  }

  /** The `w` consecutive periods ending at index e all dominate (w >= 1). */
  predicate WindowEndsAt(a: seq<int>, b: seq<int>, w: int, e: int)
  {
    1 <= w && w - 1 <= e && e < |a| && e < |b| &&
    forall i :: e - w < i <= e ==> DominatesAt(a, b, i)
  }

  /** Length of the longest run of dominating periods that ends just before index n. */
  function RunLength(a: seq<int>, b: seq<int>, n: nat): (k: nat)
    requires n <= |a| && n <= |b|
    ensures k <= n
    ensures forall i :: n - k <= i < n ==> DominatesAt(a, b, i)
    ensures k < n ==> !DominatesAt(a, b, n - 1 - k)
  {
    if n == 0 then 0
    else if a[n - 1] >= b[n - 1] then RunLength(a, b, n - 1) + 1
    else 0
  }

  /** The smallest window end at or after index e, if any. */
  function FirstWindowEndFrom(a: seq<int>, b: seq<int>, w: int, e: nat): (r: Option<nat>)
    ensures r.Some? ==> e <= r.value && WindowEndsAt(a, b, w, r.value)
    decreases |a| - e
  {
    if e >= |a| || e >= |b| then None
    else if WindowEndsAt(a, b, w, e) then Some(e)
    else FirstWindowEndFrom(a, b, w, e + 1)
  }

  /** Reference definition of the scan's result, stated over windows.
   *  For w >= 1: the first window end e gives e - w; with no window the result
   *  is -1, unless the dominatee runs out first.  For w <= 0 the counter meets
   *  the window at index 0 whatever happens, so the scan stops there with
   *  0 minus the counter. */
  function DominatedPeriodOf(a: seq<int>, b: seq<int>, w: int): Outcome
  {
    if w <= 0 then
      if |a| == 0 then Period(-1)
      else if |b| == 0 then IndexOutOfBounds(0)
      else Period(if a[0] >= b[0] then -1 else 0)
    else
      match FirstWindowEndFrom(a, b, w, 0)
      case Some(e) => Period(e - w)
      case None => if |b| < |a| then IndexOutOfBounds(|b|) else Period(-1)
  }

  /** The scan itself: a counter of consecutive dominating periods that resets
   *  on a strict failure, stopping at the first index where it reaches
   *  `domMaxPeriods`. */
  method DominatedPeriod(dominator: seq<int>, dominatee: seq<int>, domMaxPeriods: int)
    returns (r: Outcome)
    ensures r == DominatedPeriodOf(dominator, dominatee, domMaxPeriods)
  {
    var dominatedCtr := 0;
    var dominatedPeriod := -1;
    for timeIdx := 0 to |dominator|
      invariant timeIdx <= |dominatee|
      invariant dominatedCtr == RunLength(dominator, dominatee, timeIdx)
      invariant domMaxPeriods >= 1 ==> dominatedCtr < domMaxPeriods
      invariant domMaxPeriods <= 0 ==> timeIdx == 0
      invariant domMaxPeriods >= 1 ==>
        FirstWindowEndFrom(dominator, dominatee, domMaxPeriods, 0)
        == FirstWindowEndFrom(dominator, dominatee, domMaxPeriods, timeIdx)
    {
      if timeIdx >= |dominatee| {
        FirstFromNone(dominator, dominatee, domMaxPeriods, timeIdx);
        return IndexOutOfBounds(timeIdx);
      }
      if dominator[timeIdx] >= dominatee[timeIdx] {
        dominatedCtr := dominatedCtr + 1;
      } else {
        dominatedCtr := 0;
      }
      WindowIffRunLength(dominator, dominatee, domMaxPeriods, timeIdx);
      if dominatedCtr >= domMaxPeriods {
        dominatedPeriod := timeIdx - dominatedCtr;
        break;
      }
    }
    if dominatedPeriod == -1 && domMaxPeriods >= 1 && |dominator| <= |dominatee| {
      FirstFromNone(dominator, dominatee, domMaxPeriods, |dominator|);
    }
    r := Period(dominatedPeriod);
  }

  /** A window ends at e exactly when the dominating run closing at e is at least w long. */
  lemma WindowIffRunLength(a: seq<int>, b: seq<int>, w: int, e: nat)
    requires e < |a| && e < |b|
    ensures WindowEndsAt(a, b, w, e) <==> w >= 1 && RunLength(a, b, e + 1) >= w
  {
  }

  /** Past the end of either series there is no window end. */
  lemma FirstFromNone(a: seq<int>, b: seq<int>, w: int, e: nat)
    requires e >= |a| || e >= |b|
    ensures FirstWindowEndFrom(a, b, w, e) == None
  {
  }

  /** The search finds nothing from e exactly when no window ends at or after e. */
  lemma {:induction false} FirstFromNoneIff(a: seq<int>, b: seq<int>, w: int, e: nat)
    ensures FirstWindowEndFrom(a, b, w, e) == None <==>
            forall k :: e <= k ==> !WindowEndsAt(a, b, w, k)
    decreases |a| - e
  {
    if e < |a| && e < |b| && !WindowEndsAt(a, b, w, e) {
      FirstFromNoneIff(a, b, w, e + 1);
    }
  }

  /** What the search finds from e is a window end, and nothing between e and it is one. */
  lemma {:induction false} FirstFromSome(a: seq<int>, b: seq<int>, w: int, e: nat)
    requires FirstWindowEndFrom(a, b, w, e).Some?
    ensures var k := FirstWindowEndFrom(a, b, w, e).value;
      e <= k && WindowEndsAt(a, b, w, k) &&
      forall j :: e <= j < k ==> !WindowEndsAt(a, b, w, j)
    decreases |a| - e
  {
    if !WindowEndsAt(a, b, w, e) {
      FirstFromSome(a, b, w, e + 1);
    }
  }

  /** The first window end is the least of all window ends. */
  lemma FirstFromLeast(a: seq<int>, b: seq<int>, w: int, e: nat)
    requires WindowEndsAt(a, b, w, e)
    ensures FirstWindowEndFrom(a, b, w, 0).Some?
    ensures FirstWindowEndFrom(a, b, w, 0).value <= e
  {
    FirstFromNoneIff(a, b, w, 0);
    FirstFromSome(a, b, w, 0);
  }

  /** With no sustained window anywhere, and a dominatee at least as long, the
   *  result is -1. */
  lemma NoWindowGivesMinusOne(a: seq<int>, b: seq<int>, w: int)
    requires w >= 1 && |a| <= |b|
    requires forall e :: !WindowEndsAt(a, b, w, e)
    ensures DominatedPeriodOf(a, b, w) == Period(-1)
  {
    FirstFromNoneIff(a, b, w, 0);
  }

  /** An empty dominator yields -1 for every window length and every dominatee:
   *  the loop body never runs. */
  lemma EmptyDominatorGivesMinusOne(b: seq<int>, w: int)
    ensures DominatedPeriodOf([], b, w) == Period(-1)
  {
    FirstFromNoneIff([], b, w, 0);
  }

  /** A reported non-negative index p means: the scan stopped at p + w, which lies
   *  inside the series; each of the w periods after p dominates; period p itself
   *  does not; and no window closes earlier (the break). */
  lemma FoundWindow(a: seq<int>, b: seq<int>, w: int, p: int)
    requires w >= 1 && DominatedPeriodOf(a, b, w) == Period(p) && p >= 0
    ensures p + w < |a| && p + w < |b|
    ensures forall t :: p < t <= p + w ==> a[t] >= b[t]
    ensures a[p] < b[p]
    ensures forall e :: e < p + w ==> !WindowEndsAt(a, b, w, e)
  {
    FirstFromNoneIff(a, b, w, 0);
    FirstFromSome(a, b, w, 0);
    var e := p + w;
    assert WindowEndsAt(a, b, w, e);
    forall t | p < t <= e ensures a[t] >= b[t] {
      assert DominatesAt(a, b, t);
    }
    assert !WindowEndsAt(a, b, w, e - 1);
    assert !DominatesAt(a, b, p);
  }

  /** A window that starts at index 0 is reported as -1, the same value as "no window". */
  lemma WindowAtStartGivesMinusOne(a: seq<int>, b: seq<int>, w: int)
    requires WindowEndsAt(a, b, w, w - 1)
    ensures DominatedPeriodOf(a, b, w) == Period(-1)
  {
    FirstFromNoneIff(a, b, w, 0);
    FirstFromSome(a, b, w, 0);
  }

  /** Conversely, -1 means exactly one of: no window and the dominatee lasts, or
   *  the window starts at index 0. */
  lemma MinusOneMeaning(a: seq<int>, b: seq<int>, w: int)
    requires w >= 1 && DominatedPeriodOf(a, b, w) == Period(-1)
    ensures (|a| <= |b| && forall e :: !WindowEndsAt(a, b, w, e)) || WindowEndsAt(a, b, w, w - 1)
  {
    FirstFromNoneIff(a, b, w, 0);
    if FirstWindowEndFrom(a, b, w, 0).Some? {
      FirstFromSome(a, b, w, 0);
    }
  }

  /** The result is -1 or an index that leaves room for the whole window. */
  lemma PeriodRange(a: seq<int>, b: seq<int>, w: int)
    requires w >= 1 && DominatedPeriodOf(a, b, w).Period?
    ensures var p := DominatedPeriodOf(a, b, w).p;
      p == -1 || 0 <= p <= |a| - 1 - w
  {
    if FirstWindowEndFrom(a, b, w, 0).Some? {
      FirstFromSome(a, b, w, 0);
    }
  }

  /** The dominatee runs out exactly when it is shorter and no window closes within it. */
  lemma OutOfBoundsIff(a: seq<int>, b: seq<int>, w: int)
    requires w >= 1
    ensures DominatedPeriodOf(a, b, w).IndexOutOfBounds? <==>
            |b| < |a| && forall e :: !WindowEndsAt(a, b, w, e)
    ensures DominatedPeriodOf(a, b, w).IndexOutOfBounds? ==>
            DominatedPeriodOf(a, b, w).index == |b|
  {
    FirstFromNoneIff(a, b, w, 0);
  }

  /** Series of equal length never make the scan read past the dominatee. */
  lemma EqualLengthsGivePeriod(a: seq<int>, b: seq<int>, w: int)
    requires |a| <= |b|
    ensures DominatedPeriodOf(a, b, w).Period?
  {
  }

  /** Ties count as domination: identical series of length at least w are
   *  dominated from index 0, which the scan reports as -1. */
  lemma IdenticalSeriesGiveMinusOne(a: seq<int>, w: int)
    requires 1 <= w <= |a|
    ensures DominatedPeriodOf(a, a, w) == Period(-1)
  {
    assert WindowEndsAt(a, a, w, w - 1);
    WindowAtStartGivesMinusOne(a, a, w);
  }

  /** Once a window has been detected, appending further periods to both series
   *  does not change the result. */
  lemma ExtendAfterDetection(a: seq<int>, b: seq<int>, w: int, e: nat, x: seq<int>, y: seq<int>)
    requires WindowEndsAt(a, b, w, e)
    ensures DominatedPeriodOf(a + x, b + y, w) == DominatedPeriodOf(a, b, w)
  {
    FirstFromLeast(a, b, w, e);
    var k := FirstWindowEndFrom(a, b, w, 0).value;
    FirstFromSome(a, b, w, 0);
    forall j | 0 <= j <= k
      ensures WindowEndsAt(a + x, b + y, w, j) == WindowEndsAt(a, b, w, j)
    {
      assert forall i :: j - w < i <= j ==> DominatesAt(a + x, b + y, i) == DominatesAt(a, b, i);
    }
    FirstFromPrefix(a, b, x, y, w, 0, k);
  }

  /** The search on extended series agrees with the search on the originals up to
   *  the first window end k of the originals. */
  lemma {:induction false} FirstFromPrefix(a: seq<int>, b: seq<int>, x: seq<int>, y: seq<int>, w: int, e: nat, k: nat)
    requires e <= k && FirstWindowEndFrom(a, b, w, e) == Some(k)
    requires forall j :: e <= j <= k ==> WindowEndsAt(a + x, b + y, w, j) == WindowEndsAt(a, b, w, j)
    ensures FirstWindowEndFrom(a + x, b + y, w, e) == Some(k)
    decreases k - e
  {
    if e < k {
      assert !WindowEndsAt(a, b, w, e);
      FirstFromPrefix(a, b, x, y, w, e + 1, k);
    }
  }

  /** Example: the window [0, 2] starts at index 0, so the scan reports -1. */
  lemma WindowAtStartExample()
    ensures DominatedPeriodOf([1, 2, 3, 3, 3, 3, 3], [1, 2, 2, 2, 2, 2, 2], 3) == Period(-1)
  {
    WindowAtStartGivesMinusOne([1, 2, 3, 3, 3, 3, 3], [1, 2, 2, 2, 2, 2, 2], 3);
  }

  /** Example: the counter resets at index 2; the run [3, 5] closes at 5 and
   *  the scan reports 5 - 3 = 2. */
  lemma CounterResetExample()
    ensures DominatedPeriodOf([5, 5, 1, 5, 5, 5], [5, 5, 5, 5, 5, 5], 3) == Period(2)
  {
    var a, b := [5, 5, 1, 5, 5, 5], [5, 5, 5, 5, 5, 5];
    assert !DominatesAt(a, b, 2);
    assert WindowEndsAt(a, b, 3, 5);
  }
}
