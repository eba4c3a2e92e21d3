/** github.py: the sub-issues made for a checklist, found again by the marker in their body, and the rows registered for them. */
module SubIssues {
  import opened Basics
  import opened Text
  import opened Tables
  import opened Execution
  import opened Effects
  import opened PlanProgress

  datatype Issue = Issue(url: string, body: string)

  const MARK := "<!-- cogito-plan-deliverable: "

  function Marker(p: PlanId, n: nat): string { MARK + (p + ":" + (Decimal(n) + " -->")) }

  predicate OccursAt(t: string, s: string, i: nat) { i + |t| <= |s| && s[i..i + |t|] == t }

  predicate Contains(s: string, t: string) { exists i: nat | i <= |s| :: OccursAt(t, s, i) }

  function Lead(item: string): string { "## Deliverable\n\n" + item + "\n\n" }

  function Body(p: PlanId, n: nat, item: string, parent: string, hash: string): string {
    Lead(item) + (Marker(p, n) + ("\nParent plan: " + parent + "\n\nAccepted plan hash: `" + hash
    + "`\n\n## Acceptance criteria\n\n- [ ] Deliverable implemented\n- [ ] Checks recorded\n"))
  }

  // ----- which deliverable a body is for -----

  lemma PartsOccur(a: string, b: string, c: string)
    ensures OccursAt(b, a + (b + c), |a|) && Contains(a + (b + c), b)
  {
    var s := a + (b + c);
    assert s[|a|..] == b + c && s[|a|..|a| + |b|] == b;
    assert OccursAt(b, s, |a|);
  }

  lemma BodyHasItsMarker(p: PlanId, n: nat, item: string, parent: string, hash: string)
    ensures Contains(Body(p, n, item, parent, hash), Marker(p, n))
  {
    hide Contains, Marker, Lead;
    PartsOccur(Lead(item), Marker(p, n), "\nParent plan: " + parent + "\n\nAccepted plan hash: `" + hash
      + "`\n\n## Acceptance criteria\n\n- [ ] Deliverable implemented\n- [ ] Checks recorded\n");
  }

  /** The texts around the marker have no marker of their own. */
  ghost predicate PlainBody(p: PlanId, n: nat, item: string, parent: string, hash: string) {
    forall i: nat | OccursAt(MARK, Body(p, n, item, parent, hash), i) :: i == |Lead(item)|
  }

  predicate NoColon(p: PlanId) { forall i | 0 <= i < |p| :: p[i] != ':' }

  /** Then the body is for that plan and position alone, whatever the digits: position 1 is not found in position 11. */
  lemma BodyIsForOne(p: PlanId, n: nat, item: string, parent: string, hash: string, q: PlanId, m: nat)
    requires NoColon(p) && NoColon(q) && PlainBody(p, n, item, parent, hash)
    ensures Contains(Body(p, n, item, parent, hash), Marker(q, m)) <==> p == q && n == m
  {
    BodyHasItsMarker(p, n, item, parent, hash);
    var body, a := Body(p, n, item, parent, hash), |Lead(item)|;
    var rest := "\nParent plan: " + parent + "\n\nAccepted plan hash: `" + hash
      + "`\n\n## Acceptance criteria\n\n- [ ] Deliverable implemented\n- [ ] Checks recorded\n";
    if Contains(body, Marker(q, m)) {
      var i: nat :| i <= |body| && OccursAt(Marker(q, m), body, i);
      PrefixOccurs(MARK, q + ":" + (Decimal(m) + " -->"), body, i);
      assert i == a;
      assert body == Lead(item) + (Marker(p, n) + rest);
      hide Body, Lead, PlainBody;
      SameMarker(p, n, rest, q, m, body[a..]);
    }
  }

  lemma PrefixOccurs(a: string, b: string, s: string, i: nat)
    requires OccursAt(a + b, s, i)
    ensures OccursAt(a, s, i)
  {
    assert s[i..i + |a|] == s[i..i + |a + b|][..|a|];
  }

  lemma SameMarker(p: PlanId, n: nat, rest: string, q: PlanId, m: nat, s: string)
    requires NoColon(p) && NoColon(q) && s == Marker(p, n) + rest && OccursAt(Marker(q, m), s, 0)
    ensures p == q && n == m
  {
    var k := |MARK|;
    var x, y := Decimal(n) + " -->" + rest, Decimal(m) + " -->";
    assert s[k..] == p + ":" + x by { assert Marker(p, n) + rest == MARK + (p + ":" + x); }
    assert s[..|Marker(q, m)|] == MARK + (q + ":" + y);
    assert s[k..][..|q + ":" + y|] == q + ":" + y;
    SameStem(p, x, q, y, s[k..]);
    assert y <= x by { assert (p + ":" + x)[|p| + 1..] == x; assert (p + ":" + x)[..|q + ":" + y|][|q| + 1..] == y; }
    SameNumber(n, " -->" + rest, m, " -->", x);
  }

  lemma SameStem(p: string, x: string, q: string, y: string, s: string)
    requires NoColon(p) && NoColon(q) && s == p + ":" + x && |s| >= |q + ":" + y| && s[..|q + ":" + y|] == q + ":" + y
    ensures p == q
  {
    assert s[|p|] == ':' && s[|q|] == ':';
    assert forall i | 0 <= i < |p| :: s[i] == p[i];
    assert forall i | 0 <= i < |q| :: s[i] == q[i];
    assert p == s[..|p|] && q == s[..|q|];
  }

  lemma SameNumber(n: nat, a: string, m: nat, b: string, x: string)
    requires x == Decimal(n) + a && Decimal(m) + b <= x && a != "" && b != "" && !IsDigit(a[0]) && !IsDigit(b[0])
    ensures n == m
  {
    var d, e := Decimal(n), Decimal(m);
    assert x[|d|] == a[0] && x[|e|] == b[0];
    assert forall i | 0 <= i < |d| :: x[i] == d[i];
    assert forall i | 0 <= i < |e| :: x[i] == e[i];
    assert d == x[..|d|] && e == x[..|e|];
    ParseDecimal(n);
    ParseDecimal(m);
  }

  // ----- making them -----

  /** The issue a listing is searched for: the first one with the marker. */
  ghost predicate Found(existing: seq<Issue>, marker: string, i: nat) {
    i < |existing| && Contains(existing[i].body, marker) && forall j | 0 <= j < i :: !Contains(existing[j].body, marker)
  }

  ghost predicate Absent(existing: seq<Issue>, marker: string) {
    forall j | 0 <= j < |existing| :: !Contains(existing[j].body, marker)
  }

  method FindMarked(existing: seq<Issue>, marker: string) returns (i: Option<nat>)
    ensures match i case Some(k) => Found(existing, marker, k) case None => Absent(existing, marker)
  {
    var k := 0;
    while k < |existing|
      invariant k <= |existing| && forall j | 0 <= j < k :: !Contains(existing[j].body, marker)
    {
      if Contains(existing[k].body, marker) {
        return Some(k);
      }
      k := k + 1;
    }
    i := None;
  }

  /** The issue of one deliverable: the listed one, or the one GitHub made on request. */
  ghost predicate IsChild(existing: seq<Issue>, marker: string, answer: Option<string>, url: string) {
    || (exists i: nat :: Found(existing, marker, i) && existing[i].url == url)
    || (Absent(existing, marker) && answer == Some(url))
  }

  /** An issue that was made: for a deliverable without one, with its body. */
  ghost predicate MadeFor(existing: seq<Issue>, p: PlanId, items: seq<string>, parent: string, hash: string, k: nat,
                          answer: Option<string>, issue: Issue) {
    && k < |items| && Absent(existing, Marker(p, k + 1)) && answer == Some(issue.url)
    && issue.body == Body(p, k + 1, items[k], parent, hash)
  }

  /** create_deliverables: the sub-issues in the order of the checklist. answers are those to the request made for each
      deliverable, if one is needed; the first that fails ends the method, with what was made so far. */
  method CreateDeliverables(p: PlanId, items: seq<string>, parent: string, hash: string, existing: seq<Issue>,
                            answers: nat -> Option<string>, stale: nat -> bool)
    returns (children: Option<seq<string>>, made: seq<Issue>, ghost done: seq<string>)
    ensures |done| <= |items| && forall k: nat | k < |done| :: IsChild(existing, Marker(p, k + 1), answers(k), done[k])
    ensures children.Some? ==> children.value == done && |done| == |items|
    ensures children.None? ==> |done| < |items| && answers(|done|).None?
    ensures forall issue | issue in made :: exists k: nat :: k < |done| && MadeFor(existing, p, items, parent, hash, k, answers(k), issue)
    ensures forall k: nat | k < |done| && Absent(existing, Marker(p, k + 1)) ::
              Issue(done[k], Body(p, k + 1, items[k], parent, hash)) in made
  {
    hide Body, Marker, Found, Absent, Contains;
    var urls: seq<string> := [];
    made := [];
    var k := 0;
    while k < |items|
      invariant k <= |items| && |urls| == k
      invariant forall j: nat | j < k :: IsChild(existing, Marker(p, j + 1), answers(j), urls[j])
      invariant forall issue | issue in made :: exists j: nat :: j < k && MadeFor(existing, p, items, parent, hash, j, answers(j), issue)
      invariant forall j: nat | j < k && Absent(existing, Marker(p, j + 1)) ::
                  Issue(urls[j], Body(p, j + 1, items[j], parent, hash)) in made
    {
      var at := FindMarked(existing, Marker(p, k + 1));
      if at.Some? {
        FoundIsNotAbsent(existing, Marker(p, k + 1), at.value);
        if stale(k) && answers(k).None? {
          return None, made, urls;
        }
        FoundIsListed(existing, Marker(p, k + 1), at.value);
        urls := urls + [existing[at.value].url];
      } else {
        if answers(k).None? {
          return None, made, urls;
        }
        var issue := Issue(answers(k).value, Body(p, k + 1, items[k], parent, hash));
        assert MadeFor(existing, p, items, parent, hash, k, answers(k), issue);
        made := made + [issue];
        urls := urls + [issue.url];
      }
      k := k + 1;
    }
    children, done := Some(urls), urls;
  }

  lemma FoundIsListed(existing: seq<Issue>, marker: string, i: nat)
    requires Found(existing, marker, i)
    ensures i < |existing|
  {
  }

  lemma FoundIsNotAbsent(existing: seq<Issue>, marker: string, i: nat)
    requires Found(existing, marker, i)
    ensures !Absent(existing, marker)
  {
  }

  /** A marker is in at most one listed issue. */
  ghost predicate Unmixed(listing: seq<Issue>, marker: string) {
    forall i, j | 0 <= i < |listing| && 0 <= j < |listing| && Contains(listing[i].body, marker) && Contains(listing[j].body, marker)
      :: listing[i].url == listing[j].url
  }

  /** A call after one that stopped half way, on a listing that shows what was listed and made before: what had an issue
      keeps it, so nothing is made twice. */
  lemma RetryReuses(p: PlanId, items: seq<string>, parent: string, hash: string, existing: seq<Issue>, made: seq<Issue>,
                    later: seq<Issue>, k: nat, answer: Option<string>, again: Option<string>, child: string, child': string)
    requires k < |items| && IsChild(existing, Marker(p, k + 1), answer, child) && IsChild(later, Marker(p, k + 1), again, child')
    requires Absent(existing, Marker(p, k + 1)) ==> Issue(child, Body(p, k + 1, items[k], parent, hash)) in made
    requires (forall issue | issue in existing + made :: issue in later) && Unmixed(later, Marker(p, k + 1))
    ensures child' == child && !Absent(later, Marker(p, k + 1))
  {
    var marker := Marker(p, k + 1);
    BodyHasItsMarker(p, k + 1, items[k], parent, hash);
    hide Body, Marker, Contains;
    var issue;
    if i: nat :| Found(existing, marker, i) && existing[i].url == child {
      issue := existing[i];
    } else {
      issue := Issue(child, Body(p, k + 1, items[k], parent, hash));
    }
    assert issue in existing + made;
    var j :| 0 <= j < |later| && later[j] == issue;
    assert Contains(later[j].body, marker);
  }

  // ----- the rows of the plan -----

  /** In every reachable state, if each checklist registered for a plan is the sub-issues of its items in order, so are the
      plan's rows: row k is for the issue that was made for item k. */
  lemma RowsAreTheSubIssues(actions: seq<Action>, p: PlanId, children: seq<string>)
    requires forall urls | Register(p, urls) in actions :: urls == children
    ensures var rows := Rows(Run(INITIAL, actions).db, p); rows == [] || RowsFor(rows, children)
  {
    hide Run;
    if Rows(Run(INITIAL, actions).db, p) != [] { var urls := RowsAreRegistered(INITIAL, actions, p); }
  }
}
