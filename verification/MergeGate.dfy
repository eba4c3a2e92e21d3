/** foreman.py: which pull request of a finished Workload may be merged. */
module MergeGate {
  import opened Basics
  import opened Ordering

  /** A Foreman task; a missing text is empty. Times are compared as text. */
  datatype Task = Task(kind: string, phase: string, verdict: string, commitSha: string, branch: string,
                       finishedAt: string, startedAt: string, reviewedBranch: string, agent: Option<string>, pullUrl: string)

  datatype Candidate = Candidate(pullUrl: string, headSha: string, branch: string, agents: set<string>)

  datatype Refusal = NoCoder | NoQuorum | Disagreement

  predicate Succeeded(t: Task) { t.phase == "Succeeded" && t.verdict == "GO" }

  predicate Coder(t: Task) { t.kind == "issue-fix" && Succeeded(t) && t.commitSha != "" && t.branch != "" }

  /** max by finishing time: the first of the latest. */
  function LatestCoder(tasks: seq<Task>): Option<Task> {
    if tasks == [] then None
    else
      var best, last := LatestCoder(tasks[..|tasks| - 1]), tasks[|tasks| - 1];
      if Coder(last) && (best.None? || Less(best.value.finishedAt, last.finishedAt)) then Some(last) else best
  }

  /** An approving review of the coder's branch, begun once the coder was done. */
  predicate Reviews(t: Task, coder: Task) {
    && t.kind == "review" && t.reviewedBranch == coder.branch && Succeeded(t)
    && !Less(t.startedAt, coder.finishedAt) && t.pullUrl != ""
  }

  function Agents(tasks: seq<Task>, coder: Task): set<string> {
    set t | t in tasks && Reviews(t, coder) && t.agent.Some? :: t.agent.value
  }

  function Pulls(tasks: seq<Task>, coder: Task): set<string> {
    set t | t in tasks && Reviews(t, coder) :: t.pullUrl
  }

  function MergeCandidate(tasks: seq<Task>, quorum: nat): Result<Candidate, Refusal> {
    var latest := LatestCoder(tasks);
    if latest.None? then Err(NoCoder)
    else
      var coder := latest.value;
      if |Agents(tasks, coder)| < quorum then Err(NoQuorum)
      else if |Pulls(tasks, coder)| != 1 then Err(Disagreement)
      else Ok(Candidate(TheOnly(Pulls(tasks, coder)), coder.commitSha, coder.branch, Agents(tasks, coder)))
  }

  lemma OneElement(s: set<string>, x: string, y: string)
    requires |s| == 1 && x in s && y in s
    ensures x == y
  {
    assert |s - {x}| == 0;
  }

  function TheOnly(s: set<string>): (x: string)
    requires |s| == 1
    ensures s == {x}
  {
    assert s != {};
    assert forall x, y | x in s && y in s :: x == y by {
      forall x, y | x in s && y in s ensures x == y { OneElement(s, x, y); }
    }
    var x :| x in s;
    x
  }

  /** No coder finished later, and none as late comes earlier in the list. */
  ghost predicate IsFinal(tasks: seq<Task>, i: nat) {
    && i < |tasks| && Coder(tasks[i])
    && (forall j | 0 <= j < |tasks| && Coder(tasks[j]) :: !Less(tasks[i].finishedAt, tasks[j].finishedAt))
    && (forall j | 0 <= j < i && Coder(tasks[j]) :: Less(tasks[j].finishedAt, tasks[i].finishedAt))
  }

  lemma {:induction false} LatestIsFinal(tasks: seq<Task>) returns (i: nat)
    ensures LatestCoder(tasks).None? ==> forall j | 0 <= j < |tasks| :: !Coder(tasks[j])
    ensures LatestCoder(tasks).Some? ==> IsFinal(tasks, i) && LatestCoder(tasks).value == tasks[i]
    decreases |tasks|
  {
    i := 0;
    if tasks != [] {
      var n := |tasks| - 1;
      var before, last := tasks[..n], tasks[n];
      i := LatestIsFinal(before);
      var best := LatestCoder(before);
      if Coder(last) && (best.None? || Less(best.value.finishedAt, last.finishedAt)) {
        i := n;
        LessIrreflexive(last.finishedAt);
        forall j | 0 <= j < n && Coder(tasks[j]) ensures Less(tasks[j].finishedAt, last.finishedAt) {
          EarlierStillEarlier(before[j].finishedAt, best.value.finishedAt, last.finishedAt);
        }
        forall j | 0 <= j < |tasks| && Coder(tasks[j]) ensures !Less(last.finishedAt, tasks[j].finishedAt) {
          if j < n { NotBoth(tasks[j].finishedAt, last.finishedAt); }
        }
      } else if best.Some? {
        assert forall j | 0 <= j < n :: before[j] == tasks[j];
      } else {
        assert forall j | 0 <= j < n :: before[j] == tasks[j];
      }
    }
  }

  lemma NotBoth(a: string, b: string)
    requires Less(a, b)
    ensures !Less(b, a)
  {
    if Less(b, a) {
      LessTransitive(a, b, a);
      LessIrreflexive(a);
    }
  }

  lemma EarlierStillEarlier(a: string, b: string, c: string)
    requires !Less(b, a) && Less(b, c)
    ensures Less(a, c)
  {
    LessTotal(a, b);
    if Less(a, b) { LessTransitive(a, b, c); }
  }

  /** A finished fix with an artifact. */
  predicate IsFix(t: Task) {
    && t.kind == "issue-fix" && t.phase == "Succeeded" && t.verdict == "GO"
    && t.commitSha != "" && t.branch != ""
  }

  /** No fix finished later, and none as late comes earlier in the list. */
  ghost predicate LastFix(tasks: seq<Task>, i: nat) {
    && i < |tasks| && IsFix(tasks[i])
    && (forall j | 0 <= j < |tasks| && IsFix(tasks[j]) :: !Less(tasks[i].finishedAt, tasks[j].finishedAt))
    && (forall j | 0 <= j < i && IsFix(tasks[j]) :: Less(tasks[j].finishedAt, tasks[i].finishedAt))
  }

  /** A finished review that says GO to this fix: of its branch, begun when the fix was done or later, naming a pull request. */
  predicate Approves(t: Task, fix: Task) {
    && t.kind == "review" && t.phase == "Succeeded" && t.verdict == "GO"
    && t.reviewedBranch == fix.branch && t.pullUrl != ""
    && (t.startedAt == fix.finishedAt || Less(fix.finishedAt, t.startedAt))
  }

  lemma SameTerms(t: Task, fix: Task)
    ensures Coder(t) <==> IsFix(t)
    ensures Reviews(t, fix) <==> Approves(t, fix)
  {
    LessTotal(t.startedAt, fix.finishedAt);
    if Less(fix.finishedAt, t.startedAt) { NotBoth(fix.finishedAt, t.startedAt); }
    LessIrreflexive(fix.finishedAt);
  }

  lemma SameFinal(tasks: seq<Task>, i: nat)
    ensures IsFinal(tasks, i) <==> LastFix(tasks, i)
  {
    forall t ensures Coder(t) <==> IsFix(t) { SameTerms(t, t); }
    hide Coder, IsFix;
  }

  /** The final fix's commit has approving reviews of its branch by enough different named agents, and they all name the
      pull request. */
  ghost predicate PassedBy(tasks: seq<Task>, quorum: nat, c: Candidate, i: nat) {
    && LastFix(tasks, i) && c.headSha == tasks[i].commitSha && c.branch == tasks[i].branch
    && (forall name :: name in c.agents <==> exists t :: t in tasks && Approves(t, tasks[i]) && t.agent == Some(name))
    && |c.agents| >= quorum
    && (forall t | t in tasks && Approves(t, tasks[i]) :: t.pullUrl == c.pullUrl)
  }

  /** A pull request passes exactly when there is such a fix. */
  lemma GateIsExact(tasks: seq<Task>, quorum: nat, c: Candidate)
    requires quorum >= 1
    ensures MergeCandidate(tasks, quorum) == Ok(c) <==> exists i: nat :: PassedBy(tasks, quorum, c, i)
  {
    GateByTerms(tasks, quorum, c);
    forall i: nat ensures PassedBy(tasks, quorum, c, i) <==> PassedInTerms(tasks, quorum, c, i) {
      SameGate(tasks, quorum, c, i);
    }
  }

  ghost predicate PassedInTerms(tasks: seq<Task>, quorum: nat, c: Candidate, i: nat) {
    && IsFinal(tasks, i) && c.headSha == tasks[i].commitSha && c.branch == tasks[i].branch
    && c.agents == Agents(tasks, tasks[i]) && |c.agents| >= quorum
    && (forall t | t in tasks && Reviews(t, tasks[i]) :: t.pullUrl == c.pullUrl)
  }

  lemma SameGate(tasks: seq<Task>, quorum: nat, c: Candidate, i: nat)
    ensures PassedBy(tasks, quorum, c, i) <==> PassedInTerms(tasks, quorum, c, i)
  {
    SameFinal(tasks, i);
    if i < |tasks| {
      hide IsFinal, LastFix;
      forall t ensures Reviews(t, tasks[i]) <==> Approves(t, tasks[i]) { SameTerms(t, tasks[i]); }
      AgentsAre(tasks, tasks[i], c.agents);
      hide Reviews, Approves, Agents;
    }
  }

  lemma GateByTerms(tasks: seq<Task>, quorum: nat, c: Candidate)
    requires quorum >= 1
    ensures MergeCandidate(tasks, quorum) == Ok(c) <==> exists i: nat :: PassedInTerms(tasks, quorum, c, i)
  {
    hide LatestCoder, Reviews, IsFinal;
    var i := LatestIsFinal(tasks);
    forall j: nat | IsFinal(tasks, j) ensures LatestCoder(tasks).Some? && j == i { FinalIsUnique(tasks, i, j); }
    if LatestCoder(tasks).Some? {
      OnePull(tasks, tasks[i], c.pullUrl, quorum);
      assert MergeCandidate(tasks, quorum) == Ok(c) <==> PassedInTerms(tasks, quorum, c, i);
    }
  }

  lemma AgentsAre(tasks: seq<Task>, fix: Task, agents: set<string>)
    ensures agents == Agents(tasks, fix) <==>
            forall name :: name in agents <==> exists t :: t in tasks && Approves(t, fix) && t.agent == Some(name)
  {
    forall t ensures Reviews(t, fix) <==> Approves(t, fix) { SameTerms(t, fix); }
    hide Reviews, Approves;
  }

  lemma FinalIsUnique(tasks: seq<Task>, i: nat, j: nat)
    requires IsFinal(tasks, j)
    requires LatestCoder(tasks).None? ==> forall k | 0 <= k < |tasks| :: !Coder(tasks[k])
    requires LatestCoder(tasks).Some? ==> IsFinal(tasks, i)
    ensures LatestCoder(tasks).Some? && i == j
  {
  }

  lemma OnePull(tasks: seq<Task>, coder: Task, url: string, quorum: nat)
    requires quorum >= 1
    ensures |Agents(tasks, coder)| >= quorum ==>
              (|Pulls(tasks, coder)| == 1 && TheOnly(Pulls(tasks, coder)) == url
               <==> forall t | t in tasks && Reviews(t, coder) :: t.pullUrl == url)
  {
    hide Reviews;
    var pulls := Pulls(tasks, coder);
    if |Agents(tasks, coder)| >= quorum {
      assert Agents(tasks, coder) != {};
      var t :| t in tasks && Reviews(t, coder) && t.agent.Some?;
      assert t.pullUrl in pulls;
      forall u | u in tasks && Reviews(u, coder) ensures u.pullUrl in pulls {}
      if forall u | u in tasks && Reviews(u, coder) :: u.pullUrl == url {
        assert pulls == {url};
      }
      if |pulls| == 1 && TheOnly(pulls) == url { assert pulls == {url}; }
    }
  }

  /** A review that does not approve changes nothing: it vetoes no candidate. */
  lemma RejectionIsNoVeto(tasks: seq<Task>, quorum: nat, t: Task)
    requires t.kind == "review" && !Succeeded(t)
    ensures MergeCandidate(tasks + [t], quorum) == MergeCandidate(tasks, quorum)
  {
    var more := tasks + [t];
    assert more[..|tasks|] == tasks;
    forall coder ensures Agents(more, coder) == Agents(tasks, coder) && Pulls(more, coder) == Pulls(tasks, coder) {
      assert forall u :: u in more && Reviews(u, coder) <==> u in tasks && Reviews(u, coder);
    }
  }

  /** A later artifact voids the reviews begun before it was done: they do not count towards the quorum. */
  lemma NewArtifactVoidsReviews(tasks: seq<Task>, quorum: nat, t: Task)
    requires quorum >= 1 && Coder(t)
    requires forall u | u in tasks :: Less(u.startedAt, t.finishedAt) && (Coder(u) ==> Less(u.finishedAt, t.finishedAt))
    ensures MergeCandidate(tasks + [t], quorum) == Err(NoQuorum)
  {
    hide Less, Reviews;
    var more := tasks + [t];
    assert more[..|tasks|] == tasks;
    var i := LatestIsFinal(tasks);
    if LatestCoder(tasks).Some? { assert tasks[i] in tasks; }
    assert LatestCoder(more) == Some(t);
    forall u | u in more ensures !Reviews(u, t) { NotAReview(u, t); }
    assert Agents(more, t) == {};
  }

  lemma NotAReview(u: Task, coder: Task)
    requires Coder(coder) && (u == coder || Less(u.startedAt, coder.finishedAt))
    ensures !Reviews(u, coder)
  {
    assert "issue-fix"[0] != "review"[0];
  }
}
