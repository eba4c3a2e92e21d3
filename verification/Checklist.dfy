/** github.py: the deliverables of a plan, their parents, and the order they block one another in. */
module Checklist {
  import opened Basics
  import opened Text
  import opened Tables
  import opened Execution
  import opened PlanProgress

  // ----- reading the checklist -----

  /** Where str.splitlines breaks. */
  predicate IsBreak(c: char) {
    var n := c as int;
    10 <= n <= 13 || 28 <= n <= 30 || n == 0x85 || n == 0x2028 || n == 0x2029
  }

  function BreakAt(s: string): (e: nat)
    ensures e <= |s| && (e < |s| ==> IsBreak(s[e]))
    ensures forall i | 0 <= i < e :: !IsBreak(s[i])
  {
    if s == "" || IsBreak(s[0]) then 0 else BreakAt(s[1..]) + 1
  }

  function SplitLines(s: string): seq<string>
    decreases |s|
  {
    if s == "" then []
    else
      var e := BreakAt(s);
      if e == |s| then [s]
      else [s[..e]] + SplitLines(if s[e] == '\r' && e + 1 < |s| && s[e + 1] == '\n' then s[e + 2..] else s[e + 1..])
  }

  /** DELIVERABLE, after the closing bracket: at least one space, the text, trailing spaces. A text of spaces alone
      still matches when there are two or more: the first run gives its last space back. */
  function MatchText(w: string): Option<string> {
    var x := TrimStart(w);
    var m := |w| - |x|;
    if m == 0 then None
    else if x != "" then Some(TrimEnd(x))
    else if m >= 2 then Some(w[m - 1..])
    else None
  }

  function MatchBox(v: string): Option<string> {
    if |v| >= 3 && v[0] == '[' && v[1] in " xX" && v[2] == ']' then MatchText(v[3..]) else None
  }

  function MatchGap(u: string): Option<string> {
    var v := TrimStart(u);
    if |v| == |u| then None else MatchBox(v)
  }

  function MatchBullet(t: string): Option<string> {
    if t == "" || t[0] !in "-*" then None else MatchGap(t[1..])
  }

  /** DELIVERABLE.match: indentation, a bullet, spaces, a check box, the text. */
  function MatchItem(line: string): Option<string> { MatchBullet(TrimStart(line)) }

  /** The pattern as a grammar. */
  ghost predicate Item(line: string, a: string, bullet: char, b: string, mark: char, c: string, text: string, d: string) {
    && Blank(a) && bullet in "-*" && Blank(b) && b != "" && mark in " xX" && Blank(c) && c != "" && text != "" && Blank(d)
    && line == a + ([bullet] + (b + ("[" + [mark] + "]" + (c + (text + d)))))
  }

  /** The matcher takes every line the pattern takes. */
  lemma MatchIsComplete(line: string, a: string, bullet: char, b: string, mark: char, c: string, text: string, d: string)
    requires Item(line, a, bullet, b, mark, c, text, d)
    ensures MatchItem(line).Some?
  {
    hide TrimStart, MatchText, MatchGap;
    var w := c + (text + d);
    var v := "[" + [mark] + "]" + w;
    var t := [bullet] + (b + v);
    TrimStartOf(a, t);
    assert t[1..] == b + v && v[3..] == w;
    TextIsComplete(c, text, d);
    GapIsComplete(b, v);
  }

  lemma GapIsComplete(b: string, v: string)
    requires Blank(b) && b != "" && MatchBox(v).Some?
    ensures MatchGap(b + v).Some?
  {
    hide TrimStart, MatchText;
    TrimStartOf(b, v);
  }

  lemma TextIsComplete(c: string, text: string, d: string)
    requires Blank(c) && c != "" && text != ""
    ensures MatchText(c + (text + d)).Some?
  {
    hide TrimEnd;
    var w := c + (text + d);
    assert w[0] == c[0];
    assert |w| >= 2;
  }

  /** A solid text, or the last of several spaces. */
  predicate SolidText(g: string) { g != "" && ((!IsSpace(g[0]) && !IsSpace(g[|g| - 1])) || |g| == 1) }

  /** And every text it returns is one the pattern allows, with the solid ends of what follows the box,
      or the last of several spaces. */
  lemma MatchIsSound(line: string) returns (a: string, bullet: char, b: string, mark: char, c: string, d: string)
    requires MatchItem(line).Some?
    ensures Item(line, a, bullet, b, mark, c, MatchItem(line).value, d)
    ensures SolidText(MatchItem(line).value)
  {
    hide TrimStart, MatchBullet, Item, Blank, SolidText;
    var t := TrimStart(line);
    BlankStart(line);
    a := line[..|line| - |t|];
    var v;
    bullet, b, v := BulletIsSound(t);
    mark, c, d := BoxIsSound(v);
    IsItem(line, a, bullet, b, mark, c, MatchItem(line).value, d, v);
  }

  lemma BulletIsSound(t: string) returns (bullet: char, b: string, v: string)
    requires MatchBullet(t).Some?
    ensures bullet in "-*" && Blank(b) && b != "" && t == [bullet] + (b + v) && MatchBox(v) == MatchBullet(t)
  {
    hide MatchGap, MatchBox, Blank;
    bullet := t[0];
    FirstChar(t);
    b, v := GapIsSound(t[1..]);
  }

  lemma GapIsSound(u: string) returns (b: string, v: string)
    requires MatchGap(u).Some?
    ensures Blank(b) && b != "" && u == b + v && MatchBox(v) == MatchGap(u)
  {
    hide TrimStart, MatchBox, Blank;
    v := TrimStart(u);
    BlankStart(u);
    b := u[..|u| - |v|];
  }

  lemma FirstChar(t: string)
    requires t != ""
    ensures t == [t[0]] + t[1..]
  {
  }

  lemma BoxIsSound(v: string) returns (mark: char, c: string, d: string)
    requires MatchBox(v).Some?
    ensures var g := MatchBox(v).value;
            mark in " xX" && Blank(c) && c != "" && Blank(d) && v == "[" + [mark] + "]" + (c + (g + d)) && SolidText(g)
  {
    hide MatchText, SolidText, Blank;
    mark := v[1];
    c, d := TextIsSound(v[3..]);
    BoxIsFirst(v, c + (MatchBox(v).value + d));
  }

  lemma BoxIsFirst(v: string, w: string)
    requires |v| >= 3 && v[0] == '[' && v[2] == ']' && v[3..] == w
    ensures v == "[" + [v[1]] + "]" + w
  {
  }

  lemma IsItem(line: string, a: string, bullet: char, b: string, mark: char, c: string, text: string, d: string, v: string)
    requires Blank(a) && bullet in "-*" && Blank(b) && b != "" && mark in " xX" && Blank(c) && c != "" && text != "" && Blank(d)
    requires v == "[" + [mark] + "]" + (c + (text + d)) && line == a + ([bullet] + (b + v))
    ensures Item(line, a, bullet, b, mark, c, text, d)
  {
  }

  lemma TextIsSound(w: string) returns (c: string, d: string)
    requires MatchText(w).Some?
    ensures Blank(c) && c != "" && Blank(d) && w == c + (MatchText(w).value + d) && SolidText(MatchText(w).value)
  {
    hide TrimStart, TrimEnd, IsSpace;
    var x := TrimStart(w);
    var m := |w| - |x|;
    BlankStart(w);
    if x != "" {
      c := w[..m];
      d := SolidEnds(x);
    } else {
      c, d := w[..m - 1], "";
      assert forall i | 0 <= i < |c| :: c[i] == w[..m][i];
      assert w[m - 1..] + "" == w[m - 1..];
    }
  }

  lemma SolidEnds(x: string) returns (d: string)
    requires x != "" && !IsSpace(x[0])
    ensures var g := TrimEnd(x); x == g + d && Blank(d) && g != "" && !IsSpace(g[0]) && !IsSpace(g[|g| - 1])
  {
    hide TrimEnd, IsSpace;
    var g := TrimEnd(x);
    assert forall i | |g| <= i < |x| :: IsSpace(x[i]);
    d := x[|g|..];
    assert g[0] == x[0];
    assert forall i | 0 <= i < |d| :: d[i] == x[|g| + i];
  }

  predicate StartsSection(line: string) { "## " <= line }

  predicate DeliverableSection(line: string)
    requires StartsSection(line)
  {
    Lower(Trim(line[3..])) in {"deliverables", "implementation checklist"}
  }

  function Indent(line: string): nat { |line| - |TrimStart(line)| }

  datatype Entry = Entry(text: string, indent: nat)

  /** What the rest of the lines contribute. */
  function Entries(lines: seq<string>, inSection: bool): seq<Entry> {
    if lines == [] then []
    else if StartsSection(lines[0]) then Entries(lines[1..], DeliverableSection(lines[0]))
    else if inSection && MatchItem(lines[0]).Some?
    then [Entry(MatchItem(lines[0]).value, Indent(lines[0]))] + Entries(lines[1..], inSection)
    else Entries(lines[1..], inSection)
  }

  function ChecklistOf(markdown: string): seq<Entry> { Entries(SplitLines(markdown), false) }

  // ----- which lines are items -----

  /** The last heading above line k is one of a checklist. */
  ghost predicate InSection(lines: seq<string>, k: nat) {
    exists h | 0 <= h < k && h < |lines| ::
      StartsSection(lines[h]) && DeliverableSection(lines[h]) && forall j | h < j < k && j < |lines| :: !StartsSection(lines[j])
  }

  ghost predicate ItemLine(lines: seq<string>, k: nat) {
    k < |lines| && !StartsSection(lines[k]) && InSection(lines, k) && MatchItem(lines[k]).Some?
  }

  /** The item is what the line says, and it is indented by as many blanks as the line starts with. */
  predicate Says(line: string, e: Entry) {
    && MatchItem(line) == Some(e.text)
    && e.indent <= |line| && Blank(line[..e.indent]) && (e.indent < |line| ==> !IsSpace(line[e.indent]))
  }

  /** The entries are the item lines from n on, in order, and places says where. */
  ghost predicate AreItems(lines: seq<string>, n: nat, entries: seq<Entry>, places: seq<nat>) {
    && |places| == |entries|
    && (forall i | 0 <= i < |places| :: n <= places[i] && ItemLine(lines, places[i]) && Says(lines[places[i]], entries[i]))
    && (forall i, j | 0 <= i < j < |places| :: places[i] < places[j])
    && (forall k: nat | n <= k && ItemLine(lines, k) :: k in places)
  }

  lemma SectionGoesOn(lines: seq<string>, n: nat)
    requires n < |lines|
    ensures InSection(lines, n + 1) <==> if StartsSection(lines[n]) then DeliverableSection(lines[n]) else InSection(lines, n)
  {
    hide DeliverableSection;
    if StartsSection(lines[n]) {
      if DeliverableSection(lines[n]) { assert 0 <= n < n + 1; }
    } else if InSection(lines, n) {
      var h :| 0 <= h < n && StartsSection(lines[h]) && DeliverableSection(lines[h]) && forall j | h < j < n :: !StartsSection(lines[j]);
      assert 0 <= h < n + 1;
    }
  }

  lemma SaysItem(line: string)
    requires MatchItem(line).Some?
    ensures Says(line, Entry(MatchItem(line).value, Indent(line)))
  {
    hide MatchItem;
    BlankStart(line);
    assert TrimStart(line) != "" ==> line[Indent(line)] == TrimStart(line)[0];
  }

  /** Further down the lines there is one item line fewer. */
  lemma OneLine(lines: seq<string>, n: nat, entries: seq<Entry>, places: seq<nat>) returns (places': seq<nat>)
    requires n < |lines| && AreItems(lines, n + 1, entries, places)
    ensures ItemLine(lines, n) ==> AreItems(lines, n, [Entry(MatchItem(lines[n]).value, Indent(lines[n]))] + entries, places')
    ensures !ItemLine(lines, n) ==> AreItems(lines, n, entries, places')
  {
    hide ItemLine, Says, MatchItem, Indent, AreItems;
    places' := places;
    if ItemLine(lines, n) {
      ItemMatches(lines, n);
      SaysItem(lines[n]);
      OneItem(lines, n, Entry(MatchItem(lines[n]).value, Indent(lines[n])), entries, places);
      places' := [n] + places;
    } else {
      NoItem(lines, n, entries, places);
    }
  }

  lemma ItemMatches(lines: seq<string>, n: nat)
    requires ItemLine(lines, n)
    ensures n < |lines| && MatchItem(lines[n]).Some?
  {
  }

  lemma OneItem(lines: seq<string>, n: nat, e: Entry, entries: seq<Entry>, places: seq<nat>)
    requires ItemLine(lines, n) && n < |lines| && Says(lines[n], e) && AreItems(lines, n + 1, entries, places)
    ensures AreItems(lines, n, [e] + entries, [n] + places)
  {
    hide ItemLine, Says;
    forall k: nat | n <= k && ItemLine(lines, k) ensures k in [n] + places {
      if k != n { assert k in places; }
    }
  }

  lemma NoItem(lines: seq<string>, n: nat, entries: seq<Entry>, places: seq<nat>)
    requires !ItemLine(lines, n) && AreItems(lines, n + 1, entries, places)
    ensures AreItems(lines, n, entries, places)
  {
    hide ItemLine, Says;
  }

  lemma {:induction false} EntriesAreItems(lines: seq<string>, n: nat, inSection: bool) returns (places: seq<nat>)
    requires n <= |lines| && (inSection <==> InSection(lines, n))
    ensures AreItems(lines, n, Entries(lines[n..], inSection), places)
    decreases |lines| - n
  {
    hide MatchItem, Indent, InSection, StartsSection, DeliverableSection, Says;
    if n == |lines| {
      places := [];
    } else {
      EntriesStep(lines, n, inSection);
      SectionGoesOn(lines, n);
      places := EntriesAreItems(lines, n + 1, if StartsSection(lines[n]) then DeliverableSection(lines[n]) else inSection);
      hide AreItems;
      places := OneLine(lines, n, Entries(lines[n + 1..], if StartsSection(lines[n]) then DeliverableSection(lines[n]) else inSection), places);
    }
  }

  /** The checklist is the item lines under its headings, in order, each with its text and the width of its indent. */
  lemma ChecklistIsItsLines(markdown: string) returns (places: seq<nat>)
    ensures AreItems(SplitLines(markdown), 0, ChecklistOf(markdown), places)
  {
    var lines := SplitLines(markdown);
    assert lines[0..] == lines && !InSection(lines, 0);
    places := EntriesAreItems(lines, 0, false);
  }

  /** A heading is one of a checklist when, but for blanks around it and the case of its letters, it has one of two titles. */
  lemma SectionTitles(line: string)
    requires StartsSection(line)
    ensures DeliverableSection(line) <==>
              exists a, t, b :: line == "## " + (a + (t + b)) && Blank(a) && Blank(b)
                           && Lower(t) in {"deliverables", "implementation checklist"}
  {
    var w := line[3..];
    assert line == "## " + w;
    if DeliverableSection(line) {
      var a, b := Around(w);
      assert w == a + (Trim(w) + b);
    }
    if a, t, b :| line == "## " + (a + (t + b)) && Blank(a) && Blank(b) && Lower(t) in {"deliverables", "implementation checklist"} {
      assert w == a + (t + b) by { assert ("## " + (a + (t + b)))[3..] == a + (t + b); }
      TitleIsSolid(t);
      TrimBetween(a, t, b);
    }
  }

  lemma Around(w: string) returns (a: string, b: string)
    ensures w == a + (Trim(w) + b) && Blank(a) && Blank(b)
  {
    hide TrimEnd, TrimStart, IsSpace;
    var e := TrimEnd(w);
    var r := TrimStart(e);
    a, b := e[..|e| - |r|], w[|e|..];
    BlankStart(e);
    assert forall i | 0 <= i < |b| :: b[i] == w[|e| + i];
    assert w == e + b;
  }

  lemma TitleIsSolid(t: string)
    requires Lower(t) in {"deliverables", "implementation checklist"}
    ensures t != "" && !IsSpace(t[0]) && !IsSpace(t[|t| - 1])
  {
    assert Lower(t)[0] in "di" && Lower(t)[|t| - 1] in "st";
    assert Lower(t)[0] == LowerChar(t[0]) && Lower(t)[|t| - 1] == LowerChar(t[|t| - 1]);
  }

  lemma TrimBetween(a: string, t: string, b: string)
    requires Blank(a) && Blank(b) && t != "" && !IsSpace(t[0]) && !IsSpace(t[|t| - 1])
    ensures Trim(a + (t + b)) == t
  {
    var s := a + t;
    TrimEndOf(s, b);
    assert a + (t + b) == s + b;
    TrimStartOf(a, t);
  }

  lemma {:induction false} TrimEndOf(s: string, b: string)
    requires Blank(b) && s != "" && !IsSpace(s[|s| - 1])
    ensures TrimEnd(s + b) == s
    decreases |b|
  {
    if b == "" {
      assert s + b == s;
    } else {
      assert (s + b)[..|s + b| - 1] == s + b[..|b| - 1];
      TrimEndOf(s, b[..|b| - 1]);
    }
  }

  // ----- where lines end -----

  predicate Solid(line: string) { forall i | 0 <= i < |line| :: !IsBreak(line[i]) }

  /** The lines, each with a line end: LF, or CR LF. */
  function Joined(lines: seq<string>, crlf: bool): string {
    if lines == [] then "" else lines[0] + ((if crlf then "\r\n" else "\n") + Joined(lines[1..], crlf))
  }

  /** Splitting gives back lines that were joined, whichever line end was used. */
  lemma {:induction false} SplitUndoesJoin(lines: seq<string>, crlf: bool)
    requires forall i | 0 <= i < |lines| :: Solid(lines[i])
    ensures SplitLines(Joined(lines, crlf)) == lines
  {
    if lines != [] {
      var rest := Joined(lines[1..], crlf);
      SplitUndoesJoin(lines[1..], crlf);
      SplitFirst(lines[0], rest, crlf);
    }
  }

  lemma SplitFirst(line: string, rest: string, crlf: bool)
    requires Solid(line)
    ensures SplitLines(line + ((if crlf then "\r\n" else "\n") + rest)) == [line] + SplitLines(rest)
  {
    var s := line + ((if crlf then "\r\n" else "\n") + rest);
    BreakAfter(line, (if crlf then "\r\n" else "\n") + rest);
    var e := |line|;
    assert s[..e] == line && s[e..] == (if crlf then "\r\n" else "\n") + rest;
    assert s[e + (if crlf then 2 else 1)..] == rest;
  }

  lemma {:induction false} BreakAfter(line: string, rest: string)
    requires Solid(line) && rest != "" && IsBreak(rest[0])
    ensures BreakAt(line + rest) == |line|
  {
    if line == "" {
      assert line + rest == rest;
    } else {
      assert (line + rest)[1..] == line[1..] + rest;
      BreakAfter(line[1..], rest);
    }
  }

  // ----- parents -----

  /** The nearest earlier item that is less indented. */
  ghost predicate IsParent(items: seq<Entry>, k: nat, parent: Option<nat>)
    requires k < |items|
  {
    match parent
    case None => forall i | 0 <= i < k :: items[i].indent >= items[k].indent
    case Some(j) => j < k && items[j].indent < items[k].indent && forall i | j < i < k :: items[i].indent >= items[k].indent
  }

  lemma ParentIsUnique(items: seq<Entry>, k: nat, p: Option<nat>, q: Option<nat>)
    requires k < |items| && IsParent(items, k, p) && IsParent(items, k, q)
    ensures p == q
  {
  }

  datatype Spec = Spec(text: string, parent: Option<nat>)

  datatype Refused = TooMany

  /** The open ancestors: positions and indents that grow towards the top, each the parent of the next. */
  ghost predicate Stack(items: seq<Entry>, stack: seq<(nat, nat)>, specs: seq<Spec>) {
    && |specs| == |items|
    && (forall i | 0 <= i < |stack| :: stack[i].1 < |items| && stack[i].0 == items[stack[i].1].indent)
    && (stack != [] ==> specs[stack[0].1].parent == None)
    && (forall i | 0 < i < |stack| :: specs[stack[i].1].parent == Some(stack[i - 1].1))
  }

  ghost predicate Parsed(items: seq<Entry>, specs: seq<Spec>) {
    && |specs| == |items|
    && forall k | 0 <= k < |items| :: specs[k].text == items[k].text && IsParent(items, k, specs[k].parent)
  }

  /** Items after the top of the stack are at least as indented as the line being read. */
  ghost predicate Closed(items: seq<Entry>, stack: seq<(nat, nat)>, indent: nat) {
    forall i | (if stack == [] then 0 else stack[|stack| - 1].1 + 1) <= i < |items| :: items[i].indent >= indent
  }

  /** Pop what is indented at least as much; what is left on top is the parent. */
  method PopTo(stack: seq<(nat, nat)>, indent: nat, ghost items: seq<Entry>, ghost specs: seq<Spec>)
    returns (left: seq<(nat, nat)>)
    requires Stack(items, stack, specs) && Parsed(items, specs) && Closed(items, stack, indent)
    ensures Stack(items, left, specs) && left <= stack && Closed(items, left, indent)
    ensures left != [] ==> left[|left| - 1].0 < indent
  {
    hide Stack, Parsed, Closed;
    left := stack;
    while left != [] && left[|left| - 1].0 >= indent
      invariant Stack(items, left, specs) && left <= stack && Closed(items, left, indent)
      decreases |left|
    {
      PopOne(items, left, specs, indent);
      left := left[..|left| - 1];
    }
  }

  lemma PopOne(items: seq<Entry>, stack: seq<(nat, nat)>, specs: seq<Spec>, indent: nat)
    requires Stack(items, stack, specs) && Parsed(items, specs) && Closed(items, stack, indent)
    requires stack != [] && stack[|stack| - 1].0 >= indent
    ensures Stack(items, stack[..|stack| - 1], specs) && Closed(items, stack[..|stack| - 1], indent)
  {
    hide Parsed, Closed;
    var n := |stack| - 1;
    var top := stack[n].1;
    assert specs[top].parent == if n == 0 then None else Some(stack[n - 1].1);
    forall i | (if n == 0 then 0 else stack[n - 1].1 + 1) <= i < |items| ensures items[i].indent >= indent {
      if i < top {
        BetweenParent(items, specs, top, i);
      } else if i > top {
        AfterTop(items, stack, indent, i);
      }
    }
    StackPop(items, stack, specs);
    ClosedPop(items, stack, indent);
  }

  lemma BetweenParent(items: seq<Entry>, specs: seq<Spec>, k: nat, i: nat)
    requires Parsed(items, specs) && i < k < |items| && (specs[k].parent.Some? ==> specs[k].parent.value < i)
    ensures items[i].indent >= items[k].indent
  {
    assert IsParent(items, k, specs[k].parent);
  }

  lemma AfterTop(items: seq<Entry>, stack: seq<(nat, nat)>, indent: nat, i: nat)
    requires Closed(items, stack, indent) && stack != [] && stack[|stack| - 1].1 < i < |items|
    ensures items[i].indent >= indent
  {
  }

  lemma StackPop(items: seq<Entry>, stack: seq<(nat, nat)>, specs: seq<Spec>)
    requires Stack(items, stack, specs) && stack != []
    ensures Stack(items, stack[..|stack| - 1], specs)
  {
  }

  lemma ClosedPop(items: seq<Entry>, stack: seq<(nat, nat)>, indent: nat)
    requires stack != []
    requires forall i | (if |stack| == 1 then 0 else stack[|stack| - 2].1 + 1) <= i < |items| :: items[i].indent >= indent
    ensures Closed(items, stack[..|stack| - 1], indent)
  {
  }

  /** deliverable_specs. */
  method DeliverableSpecs(markdown: string) returns (r: Result<seq<Spec>, Refused>)
    ensures var items := ChecklistOf(markdown);
            if |items| > 100 then r == Err(TooMany)
            else if items == [] then r == Ok([Spec("Implement and verify the approved plan", None)])
            else r.Ok? && Parsed(items, r.value)
  {
    hide MatchItem, Indent, SplitLines, IsParent, StartsSection, DeliverableSection, Stack;
    var lines := SplitLines(markdown);
    var specs: seq<Spec>, stack: seq<(nat, nat)> := [], [];
    ghost var items: seq<Entry> := [];
    StackStart();
    var inSection, i := false, 0;
    while i < |lines|
      invariant 0 <= i <= |lines|
      invariant items + Entries(lines[i..], inSection) == ChecklistOf(markdown)
      invariant Parsed(items, specs) && Stack(items, stack, specs)
      invariant forall n: nat :: Closed(items, stack, n) || (stack != [] && stack[|stack| - 1].1 == |items| - 1)
      invariant items == [] ==> stack == []
    {
      var line := lines[i];
      EntriesStep(lines, i, inSection);
      if StartsSection(line) {
        inSection := DeliverableSection(line);
      } else if inSection {
        var found := MatchItem(line);
        if found.Some? {
          var indent, position := Indent(line), |specs|;
          ClosedAtTop(items, stack, indent);
          stack := PopTo(stack, indent, items, specs);
          var parent := if stack == [] then None else Some(stack[|stack| - 1].1);
          Push(items, stack, specs, Entry(found.value, indent), parent);
          Regroup(items, Entry(found.value, indent), Entries(lines[i + 1..], true));
          items := items + [Entry(found.value, indent)];
          specs := specs + [Spec(found.value, parent)];
          stack := stack + [(indent, position)];
        }
      }
      i := i + 1;
    }
    assert items == items + Entries(lines[i..], inSection);
    if specs == [] {
      specs := [Spec("Implement and verify the approved plan", None)];
    }
    if |specs| > 100 {
      return Err(TooMany);
    }
    r := Ok(specs);
  }

  lemma StackStart()
    ensures Stack([], [], []) && Parsed([], [])
  {
  }

  lemma EntriesStep(lines: seq<string>, i: nat, inSection: bool)
    requires i < |lines|
    ensures Entries(lines[i..], inSection)
         == if StartsSection(lines[i]) then Entries(lines[i + 1..], DeliverableSection(lines[i]))
            else if inSection && MatchItem(lines[i]).Some?
            then [Entry(MatchItem(lines[i]).value, Indent(lines[i]))] + Entries(lines[i + 1..], inSection)
            else Entries(lines[i + 1..], inSection)
  {
    hide MatchItem, Indent, StartsSection, DeliverableSection;
    assert lines[i..][1..] == lines[i + 1..];
  }

  lemma ClosedAtTop(items: seq<Entry>, stack: seq<(nat, nat)>, indent: nat)
    requires Closed(items, stack, indent) || (stack != [] && stack[|stack| - 1].1 == |items| - 1)
    ensures Closed(items, stack, indent)
  {
  }

  lemma Push(items: seq<Entry>, stack: seq<(nat, nat)>, specs: seq<Spec>, e: Entry, parent: Option<nat>)
    requires Stack(items, stack, specs) && Parsed(items, specs) && Closed(items, stack, e.indent)
    requires stack != [] ==> stack[|stack| - 1].0 < e.indent
    requires parent == if stack == [] then None else Some(stack[|stack| - 1].1)
    ensures Parsed(items + [e], specs + [Spec(e.text, parent)])
    ensures Stack(items + [e], stack + [(e.indent, |items|)], specs + [Spec(e.text, parent)])
  {
    var items', specs' := items + [e], specs + [Spec(e.text, parent)];
    ParentOfNew(items, stack, specs, e, parent);
    hide Stack, Closed, IsParent;
    forall k | 0 <= k < |items| ensures IsParent(items', k, specs'[k].parent) {
      ParentStays(items, e, k, specs[k].parent);
    }
    StackGrows(items, stack, specs, e, parent);
  }

  lemma StackGrows(items: seq<Entry>, stack: seq<(nat, nat)>, specs: seq<Spec>, e: Entry, parent: Option<nat>)
    requires Stack(items, stack, specs)
    requires parent == if stack == [] then None else Some(stack[|stack| - 1].1)
    ensures Stack(items + [e], stack + [(e.indent, |items|)], specs + [Spec(e.text, parent)])
  {
  }

  lemma ParentStays(items: seq<Entry>, e: Entry, k: nat, parent: Option<nat>)
    requires k < |items| && IsParent(items, k, parent)
    ensures IsParent(items + [e], k, parent)
  {
  }

  lemma ParentOfNew(items: seq<Entry>, stack: seq<(nat, nat)>, specs: seq<Spec>, e: Entry, parent: Option<nat>)
    requires Stack(items, stack, specs) && Closed(items, stack, e.indent)
    requires stack != [] ==> stack[|stack| - 1].0 < e.indent
    requires parent == if stack == [] then None else Some(stack[|stack| - 1].1)
    ensures IsParent(items + [e], |items|, parent)
  {
  }

  /** deliverables: the texts alone. */
  method Deliverables(markdown: string) returns (r: Result<seq<string>, Refused>)
    ensures r == DeliverableTexts(markdown)
  {
    hide MatchItem, Indent, SplitLines, StartsSection, DeliverableSection, Entries, Texts;
    var lines := SplitLines(markdown);
    var texts: seq<string> := [];
    ghost var items: seq<Entry> := [];
    assert lines[0..] == lines && [] + Entries(lines, false) == Entries(lines, false);
    NoTexts();
    var inSection, i := false, 0;
    while i < |lines|
      invariant 0 <= i <= |lines|
      invariant items + Entries(lines[i..], inSection) == ChecklistOf(markdown) && texts == Texts(items)
    {
      EntriesStep(lines, i, inSection);
      if StartsSection(lines[i]) {
        inSection := DeliverableSection(lines[i]);
      } else if inSection {
        var found := MatchItem(lines[i]);
        if found.Some? {
          ghost var e := Entry(found.value, Indent(lines[i]));
          Regroup(items, e, Entries(lines[i + 1..], true));
          TextsAppend(items, e);
          items := items + [e];
          texts := texts + [found.value];
        }
      }
      i := i + 1;
    }
    NoMoreEntries(items, lines[i..], inSection);
    TextsLength(items);
    if texts == [] {
      texts := ["Implement and verify the accepted plan"];
    }
    if |texts| > 100 {
      return Err(TooMany);
    }
    r := Ok(texts);
  }

  lemma Regroup(a: seq<Entry>, e: Entry, b: seq<Entry>)
    ensures a + ([e] + b) == a + [e] + b
  {
  }

  lemma TextsAppend(items: seq<Entry>, e: Entry)
    ensures Texts(items + [e]) == Texts(items) + [e.text]
  {
  }

  lemma NoTexts()
    ensures Texts([]) == []
  {
  }

  lemma TextsLength(items: seq<Entry>)
    ensures |Texts(items)| == |items|
  {
  }

  lemma NoMoreEntries(items: seq<Entry>, lines: seq<string>, inSection: bool)
    requires lines == []
    ensures items == items + Entries(lines, inSection)
  {
  }

  function Texts(items: seq<Entry>): seq<string> {
    seq(|items|, i requires 0 <= i < |items| => items[i].text)
  }

  function DeliverableTexts(markdown: string): Result<seq<string>, Refused> {
    var items := ChecklistOf(markdown);
    if |items| > 100 then Err(TooMany)
    else if items == [] then Ok(["Implement and verify the accepted plan"])
    else Ok(Texts(items))
  }

  /** The two readers agree on the texts exactly when the checklist has an item: their default texts differ. */
  lemma ReadersAgreeIff(markdown: string, specs: Result<seq<Spec>, Refused>)
    requires var items := ChecklistOf(markdown);
             if |items| > 100 then specs == Err(TooMany)
             else if items == [] then specs == Ok([Spec("Implement and verify the approved plan", None)])
             else specs.Ok? && Parsed(items, specs.value)
    ensures var texts := DeliverableTexts(markdown);
            if |ChecklistOf(markdown)| > 100 then specs.Err? && texts.Err?
            else specs.Ok? && texts.Ok?
                 && ((|texts.value| == |specs.value| && forall k | 0 <= k < |texts.value| :: texts.value[k] == specs.value[k].text)
                     <==> ChecklistOf(markdown) != [])
  {
    hide ChecklistOf;
    if ChecklistOf(markdown) == [] {
      assert DeliverableTexts(markdown).value[0][26] == 'c' && specs.value[0].text[26] == 'p';
    }
  }

  // ----- who blocks whom -----

  /** The previous item with the same parent. */
  ghost predicate IsBlocker(parents: seq<Option<nat>>, k: nat, blocker: Option<nat>)
    requires k < |parents|
  {
    match blocker
    case None => forall i | 0 <= i < k :: parents[i] != parents[k]
    case Some(j) => j < k && parents[j] == parents[k] && forall i | j < i < k :: parents[i] != parents[k]
  }

  /** The last loop of create_deliverables, with its dictionary. */
  method BlockedBy(parents: seq<Option<nat>>) returns (blockers: seq<Option<nat>>)
    ensures |blockers| == |parents| && forall k | 0 <= k < |parents| :: IsBlocker(parents, k, blockers[k])
  {
    blockers := [];
    var previous: map<Option<nat>, nat> := map[];
    var k := 0;
    while k < |parents|
      invariant 0 <= k <= |parents| && |blockers| == k
      invariant forall i | 0 <= i < k :: IsBlocker(parents, i, blockers[i])
      invariant forall p | p in previous ::
                  previous[p] < k && parents[previous[p]] == p && forall i | previous[p] < i < k :: parents[i] != p
      invariant forall i | 0 <= i < k :: parents[i] in previous
    {
      var p := parents[k];
      blockers := blockers + [if p in previous then Some(previous[p]) else None];
      previous := previous[p := k];
      k := k + 1;
    }
  }

  ghost predicate Blockers(parents: seq<Option<nat>>, blockers: seq<Option<nat>>) {
    |blockers| == |parents| && forall k | 0 <= k < |parents| :: IsBlocker(parents, k, blockers[k])
  }

  /** There is a chain of blockers from k back to j. */
  predicate WaitsFor(blockers: seq<Option<nat>>, k: nat, j: nat) {
    k < |blockers| && blockers[k].Some? && blockers[k].value < k
    && (blockers[k].value == j || WaitsFor(blockers, blockers[k].value, j))
  }

  /** The edges never lead forward, so they have no cycle, and stay among siblings. */
  lemma {:induction false} EdgesAreAcyclic(parents: seq<Option<nat>>, blockers: seq<Option<nat>>, k: nat, j: nat)
    requires Blockers(parents, blockers) && WaitsFor(blockers, k, j)
    ensures j < k && parents[j] == parents[k]
  {
    assert IsBlocker(parents, k, blockers[k]);
    if blockers[k].value != j { EdgesAreAcyclic(parents, blockers, blockers[k].value, j); }
  }

  /** Each item waits for every earlier sibling, and for nothing else. */
  lemma {:induction false} SiblingsAreChained(parents: seq<Option<nat>>, blockers: seq<Option<nat>>, k: nat, j: nat)
    requires Blockers(parents, blockers) && k < |parents|
    ensures WaitsFor(blockers, k, j) <==> j < k && parents[j] == parents[k]
    decreases k
  {
    assert IsBlocker(parents, k, blockers[k]);
    if WaitsFor(blockers, k, j) { EdgesAreAcyclic(parents, blockers, k, j); }
    if j < k && parents[j] == parents[k] && blockers[k] != Some(j) {
      SiblingsAreChained(parents, blockers, blockers[k].value, j);
    }
  }

  /** In every reachable state an item that was ever started has all it waits for merged, its parent included,
      and so has the one next_deliverable would start. */
  lemma DispatchFollowsTheGraph(actions: seq<Action>, p: PlanId, parents: seq<Option<nat>>, blockers: seq<Option<nat>>,
                                k: nat, j: nat)
    requires Blockers(parents, blockers) && k < |Rows(Run(INITIAL, actions).db, p)|
    requires forall i | 0 <= i < |parents| && parents[i].Some? :: parents[i].value < i
    requires WaitsFor(blockers, k, j) || (k < |parents| && parents[k] == Some(j))
    ensures var rows := Rows(Run(INITIAL, actions).db, p);
            j < k && (rows[k].state != Pending || Runnable(rows, k) ==> rows[j].state == Merged)
  {
    if WaitsFor(blockers, k, j) { EdgesAreAcyclic(parents, blockers, k, j); }
    SerialExecution(actions, p);
    var rows := Rows(Run(INITIAL, actions).db, p);
    var m :| SerialShape(rows, m);
  }
}
