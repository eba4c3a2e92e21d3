/** github.py: the plan as a GitHub issue body, and back. */
module PlanIssue {
  import opened Basics
  import opened Text
  import opened Markdown
  import opened Tables
  import opened Effects

  datatype PlanVersion = PlanVersion(id: string, room: string, event: string, hash: string, markdown: string)

  const OPEN := "<!--"
  const LABEL := "cogito-plan-id:"
  const CLOSE := "-->"

  function FirstLine(p: PlanVersion): string { "<!-- cogito-plan-id: " + p.id + " -->" }

  function SecondLine(p: PlanVersion): string { "<!-- cogito-plan-hash: " + p.hash + " -->" }

  function ThirdLine(p: PlanVersion): string { "Matrix thread: https://matrix.to/#/" + p.room + "/" + p.event }

  function Header(p: PlanVersion): string { FirstLine(p) + "\n" + SecondLine(p) + "\n" + ThirdLine(p) }

  function IssueBody(p: PlanVersion): string { Header(p) + "\n\n" + p.markdown }

  // ----- the marker -----

  /** The longest prefix without a space. */
  function Solid(s: string): (r: string)
    ensures r <= s && NoSpace(r)
    ensures |r| < |s| ==> IsSpace(s[|r|])
  {
    if s == "" || IsSpace(s[0]) then "" else [s[0]] + Solid(s[1..])
  }

  predicate Closes(s: string) { CLOSE <= s }

  /** The longest non-empty prefix of length at most j that the closing bracket follows. */
  function Backtrack(s: string, j: nat): (r: Option<string>)
    requires j <= |s|
    ensures r.Some? ==> 0 < |r.value| <= j && r.value <= s && Closes(s[|r.value|..])
    ensures forall k | 0 < k <= j && Closes(s[k..]) :: r.Some? && k <= |r.value|
  {
    if j == 0 then None
    else if Closes(s[j..]) then Some(s[..j])
    else Backtrack(s, j - 1)
  }

  /** The pattern after its label: spaces, the id, spaces, the closing bracket. */
  function MatchId(s: string): Option<string> {
    var b := TrimStart(s);
    var run := Solid(b);
    if run == "" then None
    else if Closes(TrimStart(b[|run|..])) then Some(run)
    else Backtrack(b, |run|)
  }

  /** PLAN_ID_MARKER at the start of s: its group. */
  function MatchAt(s: string): Option<string> {
    if !(OPEN <= s) then None
    else
      var a := TrimStart(s[|OPEN|..]);
      if LABEL <= a then MatchId(a[|LABEL|..]) else None
  }

  /** PLAN_ID_MARKER.search: the leftmost match. */
  function Search(s: string): Option<string> {
    if MatchAt(s).Some? then MatchAt(s)
    else if s == "" then None
    else Search(s[1..])
  }

  /** The pattern as a grammar. */
  ghost predicate Matches(s: string, id: string) {
    exists a: string, b: string, c: string, rest: string :: MatchesWith(s, a, b, id, c, rest)
  }

  ghost predicate MatchesWith(s: string, a: string, b: string, id: string, c: string, rest: string) {
    Blank(a) && Blank(b) && Blank(c) && id != "" && NoSpace(id)
    && s == OPEN + a + LABEL + b + id + c + CLOSE + rest
  }

  lemma {:induction false} SolidOf(id: string, s: string)
    requires NoSpace(id)
    ensures Solid(id + s) == id + Solid(s)
  {
    if id == "" {
      assert id + s == s;
    } else {
      assert (id + s)[1..] == id[1..] + s;
      SolidOf(id[1..], s);
      assert id == [id[0]] + id[1..];
    }
  }

  /** Concatenation the way the matcher reads it, from the front. */
  lemma FromFront(o: string, a: string, l: string, b: string, id: string, c: string, k: string, rest: string)
    ensures o + a + l + b + id + c + k + rest == o + (a + (l + (b + (id + (c + (k + rest))))))
  {
    assert k + rest == k + rest;
    Assoc(o + a + l + b + id + c, k, rest);
    Assoc(o + a + l + b + id, c, k + rest);
    Assoc(o + a + l + b, id, c + (k + rest));
    Assoc(o + a + l, b, id + (c + (k + rest)));
    Assoc(o + a, l, b + (id + (c + (k + rest))));
    Assoc(o, a, l + (b + (id + (c + (k + rest)))));
  }

  lemma Assoc(a: string, b: string, c: string)
    ensures (a + b) + c == a + (b + c)
  {
  }

  lemma Rest(a: string, b: string)
    ensures (a + b)[|a|..] == b && a <= a + b
  {
  }

  /** The matcher accepts every text the grammar does, with a group at least as long. */
  lemma MatchIsComplete(s: string, a: string, b: string, id: string, c: string, rest: string)
    requires MatchesWith(s, a, b, id, c, rest)
    ensures MatchAt(s).Some? && |id| <= |MatchAt(s).value|
    ensures c != "" ==> MatchAt(s) == Some(id)
  {
    hide TrimStart, MatchId, Blank, NoSpace, IsSpace;
    FromFront(OPEN, a, LABEL, b, id, c, CLOSE, rest);
    var onward := b + (id + (c + (CLOSE + rest)));
    LabelAfter(a, onward);
    Rest(OPEN, a + (LABEL + onward));
    Rest(LABEL, onward);
    MatchIdIsComplete(onward, b, id, c, rest);
  }

  lemma LabelAfter(a: string, onward: string)
    requires Blank(a)
    ensures TrimStart(a + (LABEL + onward)) == LABEL + onward
  {
    hide TrimStart;
    TrimStartOf(a, LABEL + onward);
  }

  lemma MatchIdIsComplete(s: string, b: string, id: string, c: string, rest: string)
    requires Blank(b) && Blank(c) && id != "" && NoSpace(id) && s == b + (id + (c + (CLOSE + rest)))
    ensures MatchId(s).Some? && |id| <= |MatchId(s).value|
    ensures c != "" ==> MatchId(s) == Some(id)
  {
    hide TrimStart, Solid, IsSpace, Closes, Backtrack, NoSpace, Blank;
    var closing := CLOSE + rest;
    var tail := c + closing;
    var t := id + tail;
    assert t[0] == id[0] && |id| + |tail| == |t|;
    SolidStart(id);
    TrimStartOf(b, t);
    SolidOf(id, tail);
    Rest(id, tail);
    if c != "" {
      assert tail[0] == c[0];
      BlankFirst(c);
      SolidStops(tail);
      assert id + "" == id;
      TrimStartOfClose(c, rest);
    } else {
      assert tail == closing;
      ClosesItself(rest);
    }
  }

  lemma SolidStart(id: string)
    requires id != "" && NoSpace(id)
    ensures !IsSpace(id[0])
  {
  }

  lemma BlankFirst(c: string)
    requires c != "" && Blank(c)
    ensures IsSpace(c[0])
  {
  }

  lemma ClosesItself(rest: string)
    ensures Closes(CLOSE + rest)
  {
  }

  lemma SolidStops(s: string)
    requires s != "" && IsSpace(s[0])
    ensures Solid(s) == ""
  {
  }

  lemma TrimStartOfClose(c: string, rest: string)
    requires Blank(c)
    ensures Closes(TrimStart(c + (CLOSE + rest)))
  {
    TrimStartOf(c, CLOSE + rest);
  }

  /** Every group the matcher returns is one the grammar allows. */
  lemma MatchIsSound(s: string)
    requires MatchAt(s).Some?
    ensures Matches(s, MatchAt(s).value)
  {
    hide TrimStart, IsSpace, MatchId, Blank, NoSpace;
    var after := s[|OPEN|..];
    var x := TrimStart(after);
    BlankStart(after);
    var a, onward := after[..|after| - |x|], x[|LABEL|..];
    var b, c, rest := MatchIdIsSound(onward);
    var id := MatchAt(s).value;
    FromFront(OPEN, a, LABEL, b, id, c, CLOSE, rest);
    Cut(s, OPEN);
    Cut(x, LABEL);
    assert MatchesWith(s, a, b, id, c, rest);
  }

  lemma Cut(s: string, a: string)
    requires a <= s
    ensures s == a + s[|a|..]
  {
  }

  lemma MatchIdIsSound(s: string) returns (b: string, c: string, rest: string)
    requires MatchId(s).Some?
    ensures Blank(b) && Blank(c) && MatchId(s).value != "" && NoSpace(MatchId(s).value)
    ensures s == b + (MatchId(s).value + (c + (CLOSE + rest)))
  {
    hide TrimStart, Solid, Backtrack, IsSpace, NoSpace, Blank, Closes;
    var t := TrimStart(s);
    BlankStart(s);
    b := s[..|s| - |t|];
    var run := Solid(t);
    if Closes(TrimStart(t[|run|..])) {
      c, rest := RunThenClose(t, run);
    } else {
      c := "";
      EmptyIsBlank();
      rest := CloseInRun(t, MatchId(s).value);
      assert "" + (CLOSE + rest) == CLOSE + rest;
    }
  }

  lemma EmptyIsBlank()
    ensures Blank("")
  {
  }

  lemma RunThenClose(t: string, run: string) returns (c: string, rest: string)
    requires run <= t && Closes(TrimStart(t[|run|..]))
    ensures Blank(c) && t == run + (c + (CLOSE + rest))
  {
    hide TrimStart, IsSpace;
    var tail := t[|run|..];
    var end := TrimStart(tail);
    BlankStart(tail);
    c, rest := tail[..|tail| - |end|], end[|CLOSE|..];
    assert end == CLOSE + rest && tail == c + end && t == run + tail;
  }

  lemma CloseInRun(t: string, id: string) returns (rest: string)
    requires Backtrack(t, |Solid(t)|) == Some(id)
    ensures t == id + (CLOSE + rest) && NoSpace(id) && id != ""
  {
    hide IsSpace;
    var tail := t[|id|..];
    rest := tail[|CLOSE|..];
    assert tail == CLOSE + rest && t == id + tail;
    assert forall i | 0 <= i < |id| :: id[i] == Solid(t)[i];
  }

  /** The matcher is the regular expression: a match exactly where the grammar has one, with the longest id it allows. */
  lemma MatchIsGreedy(s: string, id: string)
    ensures MatchAt(s).Some? <==> exists x :: Matches(s, x)
    ensures Matches(s, id) ==> |id| <= |MatchAt(s).value|
    ensures MatchAt(s).Some? ==> Matches(s, MatchAt(s).value)
  {
    hide MatchAt;
    if MatchAt(s).Some? { MatchIsSound(s); }
    forall x | Matches(s, x) ensures MatchAt(s).Some? && |x| <= |MatchAt(s).value| {
      var a, b, c, rest :| MatchesWith(s, a, b, x, c, rest);
      MatchIsComplete(s, a, b, x, c, rest);
    }
  }

  // ----- the body -----

  /** body.split("\n\n", 1)[1] */
  function AfterBreak(s: string): Option<string> {
    if |s| < 2 then None
    else if s[0] == '\n' && s[1] == '\n' then Some(s[2..])
    else AfterBreak(s[1..])
  }

  datatype EditError = NoMarker | NoEditableBody | BlankPlan | Refused(why: Refusal)

  function PlanMarkdownFromIssue(body: string): Result<(string, string), EditError> {
    if Search(body).None? then Err(NoMarker)
    else if AfterBreak(body).None? then Err(NoEditableBody)
    else Ok((Search(body).value, AfterBreak(body).value))
  }

  predicate Unbroken(s: string) { forall i | 0 <= i < |s| - 1 :: !(s[i] == '\n' && s[i + 1] == '\n') }

  lemma {:induction false} BreakAfter(head: string, tail: string)
    requires Unbroken(head) && head != "" && head[|head| - 1] != '\n'
    ensures AfterBreak(head + "\n\n" + tail) == Some(tail)
    decreases |head|
  {
    var s := head + "\n\n" + tail;
    if |head| == 1 {
      assert s[1..] == "\n\n" + tail;
      assert s[1..][2..] == tail;
    } else {
      assert s[1..] == head[1..] + "\n\n" + tail;
      assert s[0] == head[0] && s[1] == head[1];
      BreakAfter(head[1..], tail);
    }
  }

  /** Ids as the gateway has them: no spaces in any of them. */
  predicate PlainIds(p: PlanVersion) {
    p.id != "" && NoSpace(p.id) && NoSpace(p.room) && NoSpace(p.event) && NoSpace(p.hash)
  }

  lemma NoSpaceNoNewline(s: string)
    requires NoSpace(s)
    ensures '\n' !in s && '\r' !in s
  {
  }

  lemma UnbrokenJoin(a: string, b: string)
    requires Unbroken(a) && '\n' !in b && b != ""
    ensures Unbroken(a + "\n" + b) || (a != "" && a[|a| - 1] == '\n')
  {
  }

  lemma OneLine(s: string)
    requires '\n' !in s
    ensures Unbroken(s)
  {
  }

  predicate Lacks(s: string, c: char) { c !in s }

  lemma LacksJoin(a: string, b: string, c: char)
    requires Lacks(a, c) && Lacks(b, c)
    ensures Lacks(a + b, c)
  {
  }

  /** A marker comment is one line. */
  lemma CommentLacks(before: string, value: string, after: string, c: char)
    requires Lacks(before, c) && Lacks(value, c) && Lacks(after, c)
    ensures Lacks(before + value + after, c)
  {
    hide Lacks;
    LacksJoin(before, value, c);
    LacksJoin(before + value, after, c);
  }

  lemma ThreeLines(one: string, two: string, three: string)
    requires Lacks(one, '\n') && Lacks(two, '\n') && Lacks(three, '\n') && one != "" && two != "" && three != ""
    ensures var s := one + "\n" + two + "\n" + three; Unbroken(s) && s[|s| - 1] != '\n'
  {
    OneLine(one);
    assert one[|one| - 1] in one && two[|two| - 1] in two && three[|three| - 1] in three;
    var both := one + "\n" + two;
    UnbrokenJoin(one, two);
    assert both[|both| - 1] == two[|two| - 1];
    hide Unbroken;
    UnbrokenJoin(both, three);
  }

  lemma ThreeLinesLack(one: string, two: string, three: string, c: char)
    requires Lacks(one, c) && Lacks(two, c) && Lacks(three, c) && c != '\n'
    ensures Lacks(one + "\n" + two + "\n" + three, c)
  {
  }

  lemma NoSpaceNoLineEnds(p: PlanVersion, c: char)
    requires PlainIds(p) && (c == '\n' || c == '\r')
    ensures Lacks(p.id, c) && Lacks(p.hash, c) && Lacks(p.room, c) && Lacks(p.event, c)
  {
    hide NoSpace;
    NoSpaceNoNewline(p.id);
    NoSpaceNoNewline(p.hash);
    NoSpaceNoNewline(p.room);
    NoSpaceNoNewline(p.event);
  }

  lemma LiteralsLack(c: char)
    requires c == '\n' || c == '\r'
    ensures Lacks("<!-- cogito-plan-id: ", c) && Lacks(" -->", c) && Lacks("<!-- cogito-plan-hash: ", c)
  {
  }

  lemma LinkLacks(c: char)
    requires c == '\n' || c == '\r'
    ensures Lacks("Matrix thread: https://matrix.to/#/", c) && Lacks("/", c)
  {
  }

  lemma HeaderLinesLack(p: PlanVersion, c: char)
    requires PlainIds(p) && (c == '\n' || c == '\r')
    ensures Lacks(FirstLine(p), c) && Lacks(SecondLine(p), c) && Lacks(ThirdLine(p), c)
  {
    hide PlainIds, Lacks;
    NoSpaceNoLineEnds(p, c);
    LiteralsLack(c);
    LinkLacks(c);
    CommentLacks("<!-- cogito-plan-id: ", p.id, " -->", c);
    CommentLacks("<!-- cogito-plan-hash: ", p.hash, " -->", c);
    CommentLacks("Matrix thread: https://matrix.to/#/", p.room, "/", c);
    LacksJoin("Matrix thread: https://matrix.to/#/" + p.room + "/", p.event, c);
  }

  lemma HeaderIsUnbroken(p: PlanVersion)
    requires PlainIds(p)
    ensures Unbroken(Header(p)) && Header(p) != "" && Header(p)[|Header(p)| - 1] != '\n'
    ensures '\r' !in Header(p)
  {
    hide PlainIds, Unbroken;
    HeaderLinesLack(p, '\n');
    HeaderLinesLack(p, '\r');
    LinesNotEmpty(p);
    hide FirstLine, SecondLine, ThirdLine;
    ThreeLines(FirstLine(p), SecondLine(p), ThirdLine(p));
    ThreeLinesLack(FirstLine(p), SecondLine(p), ThirdLine(p), '\r');
  }

  lemma LinesNotEmpty(p: PlanVersion)
    ensures FirstLine(p) != "" && SecondLine(p) != "" && ThirdLine(p) != ""
  {
  }

  lemma HeaderMatches(p: PlanVersion, tail: string)
    requires PlainIds(p)
    ensures MatchAt(Header(p) + tail) == Some(p.id)
  {
    hide MatchAt, SecondLine, ThirdLine, PlainIds;
    var rest := "\n" + SecondLine(p) + "\n" + ThirdLine(p) + tail;
    assert Header(p) + tail == FirstLine(p) + rest;
    FirstLineMatches(p, rest);
    PlainId(p);
    MatchIsComplete(Header(p) + tail, " ", " ", p.id, " ", rest);
  }

  lemma PlainId(p: PlanVersion)
    requires PlainIds(p)
    ensures p.id != "" && NoSpace(p.id)
  {
  }

  lemma FirstLineMatches(p: PlanVersion, rest: string)
    ensures FirstLine(p) + rest == OPEN + " " + LABEL + " " + p.id + " " + CLOSE + rest
  {
    assert "<!-- cogito-plan-id: " == OPEN + " " + LABEL + " ";
    assert " -->" == " " + CLOSE;
    RegroupTwo(OPEN + " " + LABEL + " ", p.id, " ", CLOSE, rest);
  }

  lemma RegroupTwo(a: string, id: string, b: string, c: string, rest: string)
    ensures a + id + (b + c) + rest == a + id + b + c + rest
  {
  }

  /** Reading back the issue the gateway wrote gives the plan id and the text, character for character. */
  lemma IssueRoundTrip(p: PlanVersion)
    requires PlainIds(p)
    ensures PlanMarkdownFromIssue(IssueBody(p)) == Ok((p.id, p.markdown))
  {
    hide MatchAt, Header, AfterBreak;
    HeaderMatches(p, "\n\n" + p.markdown);
    assert IssueBody(p) == Header(p) + ("\n\n" + p.markdown);
    HeaderIsUnbroken(p);
    BreakAfter(Header(p), p.markdown);
  }

  // ----- edits -----

  /** record_github_edit from the issue body on. The digest is any function of the canonical text. */
  function EditFromIssue(db: Db, url: string, body: string, delivery: string, digest: string -> string): Result<Db, EditError> {
    match PlanMarkdownFromIssue(body)
    case Err(e) => Err(e)
    case Ok((id, markdown)) =>
      if id !in db.plans then Err(Refused(UnknownPlan))
      else if db.plans[id].issueUrl != Some(url) then Err(Refused(IssueMismatch))
      else if Trim(markdown) == "" then Err(BlankPlan)
      else
        match RecordGithubEdit(db, id, url, Version(digest(Canonical(markdown)), "github:" + delivery, Canonical(markdown)))
        case Ok(db') => Ok(db')
        case Err(why) => Err(Refused(why))
  }

  /** The issue's plan is on the table, this is its issue, and its current version has this text. */
  predicate Stored(db: Db, id: string, url: string, markdown: string, digest: string -> string) {
    && id in db.plans && db.plans[id].issueUrl == Some(url)
    && VersionId(id, db.plans[id].version) in db.versions
    && db.versions[VersionId(id, db.plans[id].version)].hash == digest(Canonical(markdown))
  }

  /** An issue nobody edited adds no version, approved or not, however the transport rewrote its trailing spaces. */
  lemma UneditedIssueAddsNothing(db: Db, url: string, p: PlanVersion, delivery: string, digest: string -> string)
    requires PlainIds(p) && Trim(p.markdown) != "" && Stored(db, p.id, url, p.markdown, digest)
    ensures EditFromIssue(db, url, IssueBody(p), delivery, digest) == Ok(db)
  {
    hide PlanMarkdownFromIssue, IssueBody, Canonical;
    IssueRoundTrip(p);
  }

  /** An edit leaves everything as it was exactly when the canonical text is the current one. */
  lemma EditChangesIffTextDoes(db: Db, url: string, body: string, delivery: string, digest: string -> string, current: string)
    requires PlanMarkdownFromIssue(body).Ok? && Trim(PlanMarkdownFromIssue(body).value.1) != ""
    requires Stored(db, PlanMarkdownFromIssue(body).value.0, url, current, digest)
    requires forall x, y :: digest(x) == digest(y) ==> x == y
    ensures EditFromIssue(db, url, body, delivery, digest) == Ok(db)
            <==> Canonical(PlanMarkdownFromIssue(body).value.1) == Canonical(current)
  {
    hide PlanMarkdownFromIssue, Canonical;
    var (id, markdown) := PlanMarkdownFromIssue(body).value;
    var row := Version(digest(Canonical(markdown)), "github:" + delivery, Canonical(markdown));
    var r := RecordGithubEdit(db, id, url, row);
    if r.Ok? && Canonical(markdown) != Canonical(current) {
      assert r.value.plans[id].version == db.plans[id].version + 1;
    }
  }

  /** An edit that is let in becomes the current version: the canonical text of the issue, under the digest of just that text
      and the delivery it came with, in review. */
  lemma EditStoresItsText(db: Db, url: string, body: string, delivery: string, digest: string -> string)
    requires EditFromIssue(db, url, body, delivery, digest).Ok? && EditFromIssue(db, url, body, delivery, digest).value != db
    ensures PlanMarkdownFromIssue(body).Ok?
    ensures var (id, markdown) := PlanMarkdownFromIssue(body).value;
            var db' := EditFromIssue(db, url, body, delivery, digest).value;
            id in db.plans && id !in db.approvals &&
            var v := db.plans[id].version + 1;
            && UnderReview(db', id, v, Version(digest(Canonical(markdown)), "github:" + delivery, Canonical(markdown)), url)
            && OnlyVersion(db, db', id, v)
  {
    hide PlanMarkdownFromIssue, Canonical, Trim;
    var (id, markdown) := PlanMarkdownFromIssue(body).value;
    var row := Version(digest(Canonical(markdown)), "github:" + delivery, Canonical(markdown));
    EditAdmitted(db, id, url, row.hash, db.plans[id].version + 1);
    VersionStored(db, id, db.plans[id].version + 1, row, url);
    hide EditGuards, Tables.CommitEdit, Tables.CommitPlan;
  }

  // ----- line ends -----

  lemma {:induction false} CrLfHasNoBreak(s: string)
    requires NoCr(s)
    ensures AfterBreak(ToCrLf(s)).None?
    ensures s != "" ==> ToCrLf(s) != "" && ToCrLf(s)[0] == if s[0] == '\n' then '\r' else s[0]
  {
    if s != "" {
      CrLfHasNoBreak(s[1..]);
      var rest := ToCrLf(s[1..]);
      var t := ToCrLf(s);
      if s[0] == '\n' {
        assert t == "\r\n" + rest && t[1..] == "\n" + rest && t[1..][1..] == rest;
        assert rest != "" ==> rest[0] != '\n';
      } else {
        assert t[1..] == rest;
      }
    }
  }

  /** A body whose every line ends in CR LF is refused, whatever plan it holds, though its text would hash the same. */
  lemma CrLfIssueIsRefused(p: PlanVersion)
    requires PlainIds(p) && NoCr(p.markdown)
    ensures PlanMarkdownFromIssue(ToCrLf(IssueBody(p))).Err?
    ensures Canonical(ToCrLf(p.markdown)) == Canonical(p.markdown)
  {
    hide ToCrLf, AfterBreak, Canonical, Search, Header, PlainIds;
    HeaderIsUnbroken(p);
    CrLfHasNoBreak(IssueBody(p));
    LineEndsDoNotMatter(p.markdown);
  }
}
