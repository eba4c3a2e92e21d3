/** ORDER BY time, id LIMIT n over a table keyed by id. */
module Ordering {

  /** Binary collation: the first differing character decides, a proper prefix comes first. */
  predicate Less(a: string, b: string) {
    if b == "" then false
    else if a == "" then true
    else if a[0] != b[0] then a[0] < b[0]
    else Less(a[1..], b[1..])
  }

  /** a and b agree up to k, where a ends or has the smaller character. */
  predicate DifferAt(a: string, b: string, k: nat) {
    && k <= |a| && k < |b| && (forall i | 0 <= i < k :: a[i] == b[i]) && (k < |a| ==> a[k] < b[k])
  }

  /** The order is that of the first difference. */
  lemma {:induction false} LessIsFirstDifference(a: string, b: string)
    ensures Less(a, b) <==> exists k: nat :: DifferAt(a, b, k)
  {
    if a == "" || b == "" || a[0] != b[0] {
      if b != "" && (a == "" || a[0] < b[0]) { assert DifferAt(a, b, 0); }
    } else {
      LessIsFirstDifference(a[1..], b[1..]);
      if k: nat :| DifferAt(a[1..], b[1..], k) { assert DifferAt(a, b, k + 1); }
      if k: nat :| DifferAt(a, b, k) { assert DifferAt(a[1..], b[1..], k - 1); }
    }
  }

  lemma {:induction false} LessTotal(a: string, b: string)
    ensures a == b || Less(a, b) || Less(b, a)
  {
    if a != "" && b != "" && a[0] == b[0] {
      LessTotal(a[1..], b[1..]);
      assert a == [a[0]] + a[1..] && b == [b[0]] + b[1..];
    }
  }

  lemma {:induction false} LessTransitive(a: string, b: string, c: string)
    requires Less(a, b) && Less(b, c)
    ensures Less(a, c)
  {
    if a != "" && b != "" && c != "" && a[0] == b[0] == c[0] {
      LessTransitive(a[1..], b[1..], c[1..]);
    }
  }

  lemma {:induction false} LessIrreflexive(a: string)
    ensures !Less(a, a)
  {
    if a != "" { LessIrreflexive(a[1..]); }
  }

  /** Row a comes before row b. */
  predicate Before(times: map<string, int>, a: string, b: string)
    requires a in times && b in times
  {
    times[a] < times[b] || (times[a] == times[b] && Less(a, b))
  }

  predicate IsLeast(times: map<string, int>, a: string) {
    a in times && forall b | b in times && b != a :: Before(times, a, b)
  }

  lemma BeforeTransitive(times: map<string, int>, a: string, b: string, c: string)
    requires a in times && b in times && c in times && Before(times, a, b) && Before(times, b, c)
    ensures Before(times, a, c)
  {
    if times[a] == times[b] == times[c] { LessTransitive(a, b, c); }
  }

  lemma LeastUnique(times: map<string, int>, a: string, b: string)
    requires IsLeast(times, a) && IsLeast(times, b)
    ensures a == b
  {
    if a != b && times[a] == times[b] {
      LessTransitive(a, b, a);
      LessIrreflexive(a);
    }
  }

  /** The row ORDER BY puts first: a scan that keeps the best row so far. */
  method FindLeast(times: map<string, int>) returns (best: string)
    requires times != map[]
    ensures IsLeast(times, best)
  {
    var left := times.Keys;
    best :| best in left;
    left := left - {best};
    while left != {}
      invariant left <= times.Keys && best in times && best !in left
      invariant forall b | b in times && b !in left && b != best :: Before(times, best, b)
      decreases |left|
    {
      var x :| x in left;
      left := left - {x};
      LessTotal(x, best);
      if times[x] < times[best] || (times[x] == times[best] && Less(x, best)) {
        forall b | b in times && b !in left && b != x ensures Before(times, x, b) {
          if b != best { BeforeTransitive(times, x, best, b); }
        }
        best := x;
      }
    }
  }

  lemma {:induction false} LeastExists(times: map<string, int>)
    requires times != map[]
    ensures exists a :: IsLeast(times, a)
    decreases |times|
  {
    var x :| x in times;
    var rest := times - {x};
    if rest == map[] {
      assert forall b | b in times && b != x :: b in rest;
      assert IsLeast(times, x);
    } else {
      assert |rest| < |times| by { assert rest.Keys == times.Keys - {x}; }
      LeastExists(rest);
      var a :| IsLeast(rest, a);
      LessTotal(x, a);
      if Before(times, x, a) {
        forall b | b in times && b != x ensures Before(times, x, b) {
          assert b in rest;
          if b != a {
            assert Before(rest, a, b);
            BeforeTransitive(times, x, a, b);
          }
        }
        assert IsLeast(times, x);
      } else {
        forall b | b in times && b != a ensures Before(times, a, b) {
          if b != x { assert b in rest && Before(rest, a, b); }
        }
        assert IsLeast(times, a);
      }
    }
  }

  function Least(times: map<string, int>): (a: string)
    requires times != map[]
    ensures IsLeast(times, a)
  {
    LeastExists(times);
    assert forall a, b | IsLeast(times, a) && IsLeast(times, b) :: a == b by {
      forall a, b | IsLeast(times, a) && IsLeast(times, b) ensures a == b { LeastUnique(times, a, b); }
    }
    var a :| IsLeast(times, a);
    a
  }

  /** The first n rows in order. */
  function Select(times: map<string, int>, n: nat): (ids: seq<string>)
    ensures |ids| <= n
    ensures forall i | 0 <= i < |ids| :: ids[i] in times
    ensures forall i, j | 0 <= i < j < |ids| :: ids[i] != ids[j]
    ensures times != map[] && n > 0 ==> ids != []
    decreases n
  {
    if n == 0 || times == map[] then []
    else
      var a := Least(times);
      [a] + Select(times - {a}, n - 1)
  }

  /** Select is in order. */
  lemma {:induction false} SelectIsOrdered(times: map<string, int>, n: nat)
    ensures forall i, j | 0 <= i < j < |Select(times, n)| :: Before(times, Select(times, n)[i], Select(times, n)[j])
    decreases n
  {
    if n != 0 && times != map[] {
      var a := Least(times);
      var rest := times - {a};
      SelectIsOrdered(rest, n - 1);
      var ids, tail := Select(times, n), Select(rest, n - 1);
      forall i, j | 0 <= i < j < |ids| ensures Before(times, ids[i], ids[j]) {
        assert ids[j] == tail[j - 1] && tail[j - 1] in rest;
        if i > 0 { assert ids[i] == tail[i - 1] && Before(rest, tail[i - 1], tail[j - 1]); }
      }
    }
  }

  /** A row left out comes after all of a full page. */
  lemma {:induction false} SelectIsComplete(times: map<string, int>, n: nat, x: string)
    requires x in times && x !in Select(times, n)
    ensures |Select(times, n)| == n && forall i | 0 <= i < n :: Before(times, Select(times, n)[i], x)
    decreases n
  {
    if n != 0 {
      var a := Least(times);
      var rest := times - {a};
      var ids, tail := Select(times, n), Select(rest, n - 1);
      assert a == ids[0] && x in rest;
      assert forall i | 0 <= i < |tail| :: tail[i] == ids[i + 1];
      SelectIsComplete(rest, n - 1, x);
      forall i | 0 <= i < n ensures Before(times, ids[i], x) {
        if i > 0 { assert ids[i] == tail[i - 1] && Before(rest, tail[i - 1], x); }
      }
    }
  }

  /** The query run as a loop. */
  method FirstRows(times: map<string, int>, n: nat) returns (ids: seq<string>)
    ensures ids == Select(times, n)
  {
    ids := [];
    var left := times;
    var k := n;
    while k > 0 && left != map[]
      invariant 0 <= k <= n && ids + Select(left, k) == Select(times, n)
      decreases k
    {
      var a := FindLeast(left);
      LeastUnique(left, a, Least(left));
      assert ids + ([a] + Select(left - {a}, k - 1)) == ids + [a] + Select(left - {a}, k - 1);
      ids := ids + [a];
      left := left - {a};
      k := k - 1;
    }
  }
}
