/** flashnext_public_bench.py: how much of the corpus comes closest to a token count. */
module TokenFit {
  import opened Basics

  function Distance(a: int, b: int): nat { if a < b then b - a else a - b }

  function Log2(n: nat): (l: nat)
    requires n > 0
    ensures Pow2(l) <= n < Pow2(l + 1)
  {
    if n == 1 then 0 else Log2(n / 2) + 1
  }

  /** Probes a binary search over n candidates may need. */
  function Probes(n: nat): nat { if n == 0 then 0 else 1 + Probes(n / 2) }

  lemma {:induction false} ProbesMonotone(a: nat, b: nat)
    requires a <= b
    ensures Probes(a) <= Probes(b)
  {
    if a > 0 { ProbesMonotone(a / 2, b / 2); }
  }

  lemma {:induction false} ProbesIsLog(n: nat)
    requires n > 0
    ensures Probes(n) == Log2(n) + 1
  {
    if n > 1 { ProbesIsLog(n / 2); }
  }

  /** Longer prefixes never have fewer tokens. */
  ghost predicate Monotone(count: nat -> nat, n: nat) {
    forall i: nat, j: nat | 1 <= i <= j <= n :: count(i) <= count(j)
  }

  /** The search from here on: what it has so far, and the lengths it still considers. */
  function Search(low: nat, high: nat, best: nat, bestCount: nat, target: nat, count: nat -> nat): (nat, nat)
    decreases high + 1 - low
  {
    if low > high then (best, bestCount)
    else
      var mid := (low + high) / 2;
      var c := count(mid);
      var better := Distance(c, target) < Distance(bestCount, target);
      var (b, n) := (if better then mid else best, if better then c else bestCount);
      if c == target then (b, n)
      else if c < target then Search(mid + 1, high, b, n, target, count)
      else if mid == 0 then (b, n)
      else Search(low, mid - 1, b, n, target, count)
  }

  /** No length in the range does better than distance d. */
  ghost predicate NoBetter(count: nat -> nat, target: nat, d: nat, lo: nat, hi: int) {
    forall k: nat | lo <= k <= hi :: d <= Distance(count(k), target)
  }

  /** One probe rules out everything on its far side from the target, and the better of the two distances counts. */
  lemma Narrow(count: nat -> nat, n: nat, target: nat, low: nat, mid: nat, high: nat, d: nat, d': nat)
    requires Monotone(count, n) && 1 <= low <= mid <= high <= n
    requires NoBetter(count, target, d, 1, low - 1) && NoBetter(count, target, d, high + 1, n)
    requires d' <= d && d' <= Distance(count(mid), target)
    ensures count(mid) <= target ==> NoBetter(count, target, d', 1, mid) && NoBetter(count, target, d', high + 1, n)
    ensures count(mid) >= target ==> NoBetter(count, target, d', mid, n) && NoBetter(count, target, d', 1, low - 1)
    ensures d' == 0 ==> NoBetter(count, target, d', 1, n)
  {
    forall k: nat | 1 <= k <= n && ((k <= mid && count(mid) <= target) || (k >= mid && count(mid) >= target))
      ensures Distance(count(mid), target) <= Distance(count(k), target)
    {
      assert count(k) <= count(mid) || count(k) >= count(mid);
    }
  }

  lemma NoneLeft(count: nat -> nat, target: nat, d: nat, low: nat, high: nat, n: nat)
    requires low == high + 1 && NoBetter(count, target, d, 1, low - 1) && NoBetter(count, target, d, high + 1, n)
    ensures NoBetter(count, target, d, 1, n)
  {
  }

  lemma SearchStep(low: nat, high: nat, best: nat, bestCount: nat, target: nat, count: nat -> nat)
    requires 1 <= low <= high
    ensures var mid := (low + high) / 2;
            var c := count(mid);
            var better := Distance(c, target) < Distance(bestCount, target);
            var (b, m) := (if better then mid else best, if better then c else bestCount);
            Search(low, high, best, bestCount, target, count)
            == if c == target then (b, m)
               else if c < target then Search(mid + 1, high, b, m, target, count)
               else Search(low, mid - 1, b, m, target, count)
  {
  }

  lemma Halves(low: nat, high: nat)
    requires 1 <= low <= high
    ensures var mid, m := (low + high) / 2, high + 1 - low;
            low <= mid <= high && Probes(mid - low) + 1 <= Probes(m) && Probes(high - mid) + 1 <= Probes(m)
  {
    var mid, m := (low + high) / 2, high + 1 - low;
    ProbesMonotone(mid - low, m / 2);
    ProbesMonotone(high - mid, m / 2);
  }

  lemma NoBetterMeans(count: nat -> nat, target: nat, n: nat)
    ensures forall best: nat :: NoBetter(count, target, Distance(best, target), 1, n) ==>
              forall k: nat | 1 <= k <= n ::
                (if best < target then target - best else best - target)
                <= (if count(k) < target then target - count(k) else count(k) - target)
  {
  }

  /** fit: how many characters of the corpus to take, and their token count; 0 and 0 when nothing beats the bare prefix,
      which is taken to have none. */
  method Fit(n: nat, target: nat, count: nat -> nat) returns (best: nat, bestCount: nat, ghost probes: nat)
    ensures (best, bestCount) == Search(1, n, 0, 0, target, count)
    ensures best <= n && (if best == 0 then bestCount == 0 else bestCount == count(best))
    ensures probes <= if n == 0 then 0 else Log2(n) + 1
    ensures Distance(bestCount, target) <= target
    ensures Monotone(count, n) ==> NoBetter(count, target, Distance(bestCount, target), 1, n)
    ensures Monotone(count, n) ==> forall k: nat | 1 <= k <= n ::
              (if bestCount < target then target - bestCount else bestCount - target)
              <= (if count(k) < target then target - count(k) else count(k) - target)
  {
    NoBetterMeans(count, target, n);
    hide Probes, Log2, Monotone, NoBetter, Search, Distance;
    DistanceFromZero(target);
    var low, high := 1, n;
    best, bestCount, probes := 0, 0, 0;
    ProbesOf(n);
    NothingOutside(count, target, Distance(0, target), n);
    while low <= high
      invariant 1 <= low <= high + 1 <= n + 1
      invariant best <= n && (if best == 0 then bestCount == 0 else bestCount == count(best))
      invariant Distance(bestCount, target) <= target
      invariant Search(low, high, best, bestCount, target, count) == Search(1, n, 0, 0, target, count)
      invariant probes + Probes(high + 1 - low) <= Probes(n)
      invariant Monotone(count, n) ==> NoBetter(count, target, Distance(bestCount, target), 1, low - 1)
      invariant Monotone(count, n) ==> NoBetter(count, target, Distance(bestCount, target), high + 1, n)
      decreases high + 1 - low
    {
      var mid := (low + high) / 2;
      var c := count(mid);
      Halves(low, high);
      SearchStep(low, high, best, bestCount, target, count);
      ghost var d := Distance(bestCount, target);
      probes := probes + 1;
      if Distance(c, target) < Distance(bestCount, target) {
        best, bestCount := mid, c;
      }
      if Monotone(count, n) { Narrow(count, n, target, low, mid, high, d, Distance(bestCount, target)); }
      if c == target {
        ExactIsZero(c, target);
        return;
      }
      if c < target {
        low := mid + 1;
      } else {
        high := mid - 1;
      }
    }
    SearchOver(low, high, best, bestCount, target, count);
    if Monotone(count, n) { NoneLeft(count, target, Distance(bestCount, target), low, high, n); }
  }

  lemma DistanceFromZero(target: nat)
    ensures Distance(0, target) == target
  {
  }

  lemma ExactIsZero(c: nat, target: nat)
    ensures c == target ==> Distance(c, target) == 0
  {
  }

  lemma SearchOver(low: nat, high: nat, best: nat, bestCount: nat, target: nat, count: nat -> nat)
    requires low > high
    ensures Search(low, high, best, bestCount, target, count) == (best, bestCount)
  {
  }

  lemma NothingOutside(count: nat -> nat, target: nat, d: nat, n: nat)
    ensures NoBetter(count, target, d, 1, 0) && NoBetter(count, target, d, n + 1, n)
  {
  }

  lemma ProbesOf(n: nat)
    ensures Probes(n) == if n == 0 then 0 else Log2(n) + 1
  {
    if n > 0 { ProbesIsLog(n); }
  }

  /** The smallest distance over prefixes of 1 to n characters and the count of zero the search starts from. */
  function BestDistance(n: nat, target: nat, count: nat -> nat): nat {
    if n == 0 then target
    else
      var before := BestDistance(n - 1, target, count);
      if Distance(count(n), target) < before then Distance(count(n), target) else before
  }

  lemma {:induction false} BestDistanceIsLeast(n: nat, target: nat, count: nat -> nat)
    ensures BestDistance(n, target, count) <= target
    ensures forall k: nat | 1 <= k <= n :: BestDistance(n, target, count) <= Distance(count(k), target)
    ensures BestDistance(n, target, count) == target
            || exists k: nat :: 1 <= k <= n && BestDistance(n, target, count) == Distance(count(k), target)
  {
    if n > 0 { BestDistanceIsLeast(n - 1, target, count); }
  }

  /** On monotone counts the search finds the optimum. */
  lemma FitIsOptimal(n: nat, target: nat, count: nat -> nat, best: nat, bestCount: nat)
    requires best <= n && (if best == 0 then bestCount == 0 else bestCount == count(best))
    requires Distance(bestCount, target) <= target && NoBetter(count, target, Distance(bestCount, target), 1, n)
    ensures Distance(bestCount, target) == BestDistance(n, target, count)
  {
    BestDistanceIsLeast(n, target, count);
  }

  /** On other counts it can miss even an exact length: here three characters would do, and it settles for two. */
  lemma MonotoneIsNeeded(count: nat -> nat)
    requires count(1) == 5 && count(2) == 9 && count(3) == 7
    ensures !Monotone(count, 3)
    ensures Search(1, 3, 0, 0, 7, count) == (2, 9) && BestDistance(3, 7, count) == 0
  {
    assert count(2) > count(3);
    assert Search(1, 1, 2, 9, 7, count) == Search(2, 1, 2, 9, 7, count) == (2, 9);
    assert Search(1, 3, 0, 0, 7, count) == Search(1, 1, 2, 9, 7, count);
  }
}
