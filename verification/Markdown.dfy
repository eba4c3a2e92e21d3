/** models.py: canonical Markdown, the form that is hashed and stored. */
module Markdown {
  import opened Text

  /** s.replace("\r\n", "\n") */
  function ReplaceCrLf(s: string): string {
    if s == "" then ""
    else if |s| >= 2 && s[0] == '\r' && s[1] == '\n' then "\n" + ReplaceCrLf(s[2..])
    else [s[0]] + ReplaceCrLf(s[1..])
  }

  /** s.replace(a, b) for single characters. */
  function ReplaceChar(s: string, a: char, b: string): string {
    if s == "" then "" else (if s[0] == a then b else [s[0]]) + ReplaceChar(s[1..], a, b)
  }

  /** Where the first line ends. */
  function LineEnd(s: string): (e: nat)
    ensures e <= |s| && (e < |s| ==> s[e] == '\n')
    ensures forall i | 0 <= i < e :: s[i] != '\n'
  {
    if s == "" || s[0] == '\n' then 0 else LineEnd(s[1..]) + 1
  }

  /** s.split("\n") */
  function Lines(s: string): (r: seq<string>)
    ensures r != []
    decreases |s|
  {
    var e := LineEnd(s);
    if e == |s| then [s] else [s[..e]] + Lines(s[e + 1..])
  }

  function EachTrimmed(lines: seq<string>): seq<string> {
    if lines == [] then [] else [TrimEnd(lines[0])] + EachTrimmed(lines[1..])
  }

  /** "\n".join(lines) */
  function Join(lines: seq<string>): string {
    if lines == [] then "" else if |lines| == 1 then lines[0] else lines[0] + "\n" + Join(lines[1..])
  }

  function TrimLines(s: string): string { Join(EachTrimmed(Lines(s))) }

  function Unified(s: string): string { ReplaceChar(ReplaceCrLf(s), '\r', "\n") }

  function Canonical(s: string): string { Trim(TrimLines(Unified(s))) + "\n" }

  // ----- what canonical text looks like -----

  predicate NoCr(s: string) { '\r' !in s }

  /** No line ends in a space. */
  predicate Tight(s: string) {
    && (forall i | 0 < i < |s| && s[i] == '\n' :: s[i - 1] == '\n' || !IsSpace(s[i - 1]))
    && (s != "" ==> s[|s| - 1] == '\n' || !IsSpace(s[|s| - 1]))
  }

  /** One newline at the very end, solid ends before it, no carriage return, no trailing spaces. */
  predicate IsCanonical(s: string) {
    s != "" && s[|s| - 1] == '\n'
    && var t := s[..|s| - 1];
       NoCr(t) && Tight(t) && (t == "" || (!IsSpace(t[0]) && !IsSpace(t[|t| - 1])))
  }

  lemma {:induction false} UnifiedHasNoCr(s: string)
    ensures NoCr(ReplaceChar(s, '\r', "\n"))
  {
    if s != "" { UnifiedHasNoCr(s[1..]); }
  }

  lemma {:induction false} NothingToUnify(s: string)
    requires NoCr(s)
    ensures ReplaceCrLf(s) == s && ReplaceChar(s, '\r', "\n") == s
  {
    if s != "" {
      assert s == [s[0]] + s[1..];
      NothingToUnify(s[1..]);
    }
  }

  lemma JoinCons(x: string, rest: seq<string>)
    requires rest != []
    ensures Join([x] + rest) == x + "\n" + Join(rest)
  {
    assert ([x] + rest)[1..] == rest;
  }

  lemma EachCons(x: string, rest: seq<string>)
    ensures EachTrimmed([x] + rest) == [TrimEnd(x)] + EachTrimmed(rest)
    ensures rest != [] ==> EachTrimmed(rest) != []
  {
    assert ([x] + rest)[1..] == rest;
  }

  lemma LinesStep(s: string)
    ensures var e := LineEnd(s); Lines(s) == if e == |s| then [s] else [s[..e]] + Lines(s[e + 1..])
  {
    hide LineEnd;
  }

  /** TrimLines line by line. */
  lemma TrimLinesStep(s: string)
    ensures var e := LineEnd(s);
            TrimLines(s) == if e == |s| then TrimEnd(s) else TrimEnd(s[..e]) + "\n" + TrimLines(s[e + 1..])
  {
    hide TrimEnd, Join, EachTrimmed, LineEnd, Lines, IsSpace;
    var e := LineEnd(s);
    LinesStep(s);
    if e == |s| {
      EachCons(s, []);
      assert [s] + [] == [s];
      EachOfNone();
      JoinOne(TrimEnd(s));
      assert [TrimEnd(s)] + [] == [TrimEnd(s)];
    } else {
      var rest := Lines(s[e + 1..]);
      EachCons(s[..e], rest);
      JoinCons(TrimEnd(s[..e]), EachTrimmed(rest));
    }
  }

  lemma EachOfNone()
    ensures EachTrimmed([]) == []
  {
  }

  lemma JoinOne(x: string)
    ensures Join([x]) == x
  {
  }

  lemma TightPrepend(a: string, b: string)
    requires Tight(b) && '\n' !in a && (a != "" ==> !IsSpace(a[|a| - 1]))
    ensures Tight(a + "\n" + b)
  {
    var s := a + "\n" + b;
    assert forall i | 0 <= i < |a| :: s[i] == a[i] && a[i] in a;
    assert forall i | |a| < i < |s| :: s[i] == b[i - |a| - 1];
  }

  lemma TightLine(a: string)
    requires '\n' !in a && (a != "" ==> !IsSpace(a[|a| - 1]))
    ensures Tight(a)
  {
    assert forall i | 0 <= i < |a| :: a[i] in a;
  }

  lemma {:induction false} TrimLinesIsTight(s: string)
    ensures Tight(TrimLines(s)) && (NoCr(s) ==> NoCr(TrimLines(s)))
    decreases |s|
  {
    hide TrimEnd, TrimLines, LineEnd, Tight;
    TrimLinesStep(s);
    var e := LineEnd(s);
    if e == |s| {
      TightLine(TrimEnd(s));
      assert forall i | 0 <= i < |TrimEnd(s)| :: TrimEnd(s)[i] == s[i];
    } else {
      var a, b := TrimEnd(s[..e]), s[e + 1..];
      assert forall i | 0 <= i < |a| :: a[i] == s[i];
      TrimLinesIsTight(b);
      TightPrepend(a, TrimLines(b));
    }
  }

  /** A tight text is tight line by line. */
  lemma TightSplit(s: string, e: nat)
    requires Tight(s) && e < |s| && s[e] == '\n' && (forall i | 0 <= i < e :: s[i] != '\n')
    ensures Tight(s[e + 1..]) && (e > 0 ==> !IsSpace(s[e - 1])) && s == s[..e] + "\n" + s[e + 1..]
  {
    var b := s[e + 1..];
    assert forall i | 0 <= i < |b| :: b[i] == s[e + 1 + i];
  }

  lemma {:induction false} TightStays(s: string)
    requires Tight(s)
    ensures TrimLines(s) == s
    decreases |s|
  {
    hide TrimEnd, TrimLines, LineEnd, IsSpace;
    TrimLinesStep(s);
    var e := LineEnd(s);
    if e == |s| {
      assert forall i | 0 <= i < |s| :: s[i] != '\n';
      TrimmedEnd(s);
    } else {
      TightSplit(s, e);
      hide Tight;
      TrimmedEnd(s[..e]);
      TightStays(s[e + 1..]);
    }
  }

  lemma TrimmedEnd(s: string)
    requires s != "" ==> !IsSpace(s[|s| - 1])
    ensures TrimEnd(s) == s
  {
  }

  /** A trimmed piece of a tight text is tight. */
  lemma TrimIsTight(s: string)
    requires Tight(s)
    ensures Tight(Trim(s)) && (NoCr(s) ==> NoCr(Trim(s)))
  {
    hide TrimEnd, TrimStart, IsSpace;
    var e := TrimEnd(s);
    var r := TrimStart(e);
    assert forall i | 0 <= i < |e| :: e[i] == s[i];
    assert forall i | 0 <= i < |r| :: r[i] == e[|e| - |r| + i];
    TrimSolid(s);
  }

  lemma CanonicalForm(s: string)
    ensures IsCanonical(Canonical(s))
  {
    hide TrimEnd, TrimLines, Trim, ReplaceCrLf, ReplaceChar, Tight, IsSpace;
    var u := Unified(s);
    UnifiedHasNoCr(ReplaceCrLf(s));
    TrimLinesIsTight(u);
    TrimIsTight(TrimLines(u));
    TrimSolid(TrimLines(u));
    assert (Trim(TrimLines(u)) + "\n")[..|Trim(TrimLines(u))|] == Trim(TrimLines(u));
  }

  lemma TrimDropsNewline(t: string)
    requires t == "" || (!IsSpace(t[0]) && !IsSpace(t[|t| - 1]))
    ensures Trim(t + "\n") == t
  {
    assert (t + "\n")[..|t|] == t;
    TrimmedStays(t);
  }

  lemma TightWithNewline(t: string)
    requires Tight(t)
    ensures Tight(t + "\n")
  {
    assert forall i | 0 <= i < |t| :: (t + "\n")[i] == t[i];
  }

  lemma CanonicalStays(s: string)
    requires IsCanonical(s)
    ensures Canonical(s) == s
  {
    hide Trim, TrimLines, ReplaceCrLf, ReplaceChar, IsSpace;
    var t := s[..|s| - 1];
    assert s == t + "\n";
    NothingToUnify(s);
    TightWithNewline(t);
    TightStays(s);
    TrimDropsNewline(t);
  }

  // ----- main results -----

  /** The canonical texts are exactly the fixed points, and one pass reaches them. */
  lemma CanonicalIsIdempotent(s: string)
    ensures Canonical(Canonical(s)) == Canonical(s)
    ensures Canonical(s) == s <==> IsCanonical(s)
  {
    CanonicalForm(s);
    CanonicalStays(Canonical(s));
    if IsCanonical(s) { CanonicalStays(s); }
  }

  function ToCrLf(s: string): string { ReplaceChar(s, '\n', "\r\n") }

  lemma {:induction false} UnifyUndoesCrLf(s: string)
    requires NoCr(s)
    ensures ReplaceCrLf(ToCrLf(s)) == s
  {
    if s != "" {
      UnifyUndoesCrLf(s[1..]);
      assert s == [s[0]] + s[1..];
      var rest := ToCrLf(s[1..]);
      if s[0] == '\n' {
        assert ("\r\n" + rest)[2..] == rest;
      } else {
        assert ([s[0]] + rest)[1..] == rest;
      }
    }
  }

  lemma {:induction false} CrUndone(s: string)
    requires NoCr(s)
    ensures ReplaceCrLf(ReplaceChar(s, '\n', "\r")) == ReplaceChar(s, '\n', "\r")
    ensures ReplaceChar(ReplaceChar(s, '\n', "\r"), '\r', "\n") == s
  {
    if s != "" {
      CrUndone(s[1..]);
      var rest := ReplaceChar(s[1..], '\n', "\r");
      var c := if s[0] == '\n' then "\r" else [s[0]];
      assert s == [s[0]] + s[1..] && (c + rest)[1..] == rest;
      NoNewline(s[1..]);
      assert rest != "" ==> rest[0] in rest;
    }
  }

  lemma {:induction false} NoNewline(s: string)
    ensures '\n' !in ReplaceChar(s, '\n', "\r")
  {
    if s != "" { NoNewline(s[1..]); }
  }

  /** Text that arrives with the line ends of another system is the same text. */
  lemma LineEndsDoNotMatter(s: string)
    requires NoCr(s)
    ensures Canonical(ToCrLf(s)) == Canonical(s) == Canonical(ReplaceChar(s, '\n', "\r"))
  {
    UnifyUndoesCrLf(s);
    NothingToUnify(s);
    CrUndone(s);
  }

  /** Only spaces at the ends of lines and of the text are lost: what is left of each line is left as it was. */
  lemma {:induction false} TrimLinesKeepsLines(s: string)
    ensures EachTrimmed(Lines(TrimLines(s))) == EachTrimmed(Lines(s)) == Lines(TrimLines(s))
    decreases |s|
  {
    hide TrimEnd, TrimLines, LineEnd, EachTrimmed, Lines, IsSpace;
    TrimLinesStep(s);
    LinesStep(s);
    var e := LineEnd(s);
    var a := TrimEnd(s[..e]);
    assert forall i | 0 <= i < |a| :: a[i] == s[i];
    TrimmedEnd(a);
    if e == |s| {
      assert s[..e] == s && [s] + [] == [s] && [a] + [] == [a];
      NoLineEnd(a);
      EachCons(s, []);
      EachCons(a, []);
      EachOfNone();
    } else {
      var rest, tail := TrimLines(s[e + 1..]), Lines(s[e + 1..]);
      TrimLinesKeepsLines(s[e + 1..]);
      LinesPrepend(a, rest);
      EachCons(s[..e], tail);
      EachCons(a, Lines(rest));
    }
  }

  lemma NoLineEnd(a: string)
    requires '\n' !in a
    ensures LineEnd(a) == |a| && Lines(a) == [a]
  {
  }

  lemma LinesPrepend(a: string, b: string)
    requires '\n' !in a
    ensures Lines(a + "\n" + b) == [a] + Lines(b)
  {
    var s := a + "\n" + b;
    var e := LineEnd(s);
    assert s[|a|] == '\n';
    assert forall i | 0 <= i < |a| :: s[i] == a[i] && a[i] in a;
    assert e == |a|;
    assert s[..e] == a && s[e + 1..] == b;
  }

  // ----- what is not kept -----

  predicate Spaces(w: string) { forall i | 0 <= i < |w| :: w[i] == ' ' }

  lemma {:induction false} IndentCrLf(w: string, s: string)
    requires Spaces(w)
    ensures ReplaceCrLf(w + s) == w + ReplaceCrLf(s)
  {
    hide ReplaceChar;
    if w == "" {
      assert w + s == s;
    } else {
      var t := w + s;
      assert t[0] == ' ' && t[1..] == w[1..] + s && w == [w[0]] + w[1..];
      IndentCrLf(w[1..], s);
      assert [w[0]] + (w[1..] + ReplaceCrLf(s)) == w + ReplaceCrLf(s);
    }
  }

  lemma {:induction false} IndentCr(w: string, s: string)
    requires Spaces(w)
    ensures ReplaceChar(w + s, '\r', "\n") == w + ReplaceChar(s, '\r', "\n")
  {
    hide ReplaceCrLf;
    if w == "" {
      assert w + s == s;
    } else {
      var t := w + s;
      assert t[0] == ' ' && t[1..] == w[1..] + s && w == [w[0]] + w[1..];
      IndentCr(w[1..], s);
      var rest := ReplaceChar(s, '\r', "\n");
      assert [w[0]] + (w[1..] + rest) == w + rest;
    }
  }

  lemma {:induction false} IndentLineEnd(w: string, s: string)
    requires Spaces(w)
    ensures LineEnd(w + s) == |w| + LineEnd(s)
  {
    if w == "" {
      assert w + s == s;
    } else {
      assert (w + s)[1..] == w[1..] + s;
      IndentLineEnd(w[1..], s);
    }
  }

  lemma {:induction false} IndentTrimEnd(w: string, s: string)
    requires s != "" && !IsSpace(s[0])
    ensures TrimEnd(w + s) == w + TrimEnd(s) && TrimEnd(s) != "" && TrimEnd(s)[0] == s[0]
    decreases |s|
  {
    if IsSpace(s[|s| - 1]) {
      assert (w + s)[..|w + s| - 1] == w + s[..|s| - 1];
      IndentTrimEnd(w, s[..|s| - 1]);
    }
  }

  lemma SolidIsNotNewline(s: string)
    requires s != "" && !IsSpace(s[0])
    ensures s[0] != '\n'
  {
  }

  /** The first line moves right, the others stay. */
  lemma IndentSplit(w: string, s: string, e: nat)
    requires e <= |s|
    ensures (w + s)[..|w| + e] == w + s[..e] && (e < |s| ==> (w + s)[|w| + e + 1..] == s[e + 1..])
  {
  }

  lemma IndentTrimLines(w: string, s: string)
    requires Spaces(w) && s != "" && !IsSpace(s[0])
    ensures TrimLines(w + s) == w + TrimLines(s) && TrimLines(s) != "" && TrimLines(s)[0] == s[0]
  {
    hide TrimLines, LineEnd, TrimEnd, IsSpace, Spaces;
    SolidIsNotNewline(s);
    IndentLineEnd(w, s);
    TrimLinesStep(s);
    TrimLinesStep(w + s);
    var e := LineEnd(s);
    var line := s[..e];
    assert line[0] == s[0];
    IndentTrimEnd(w, line);
    IndentSplit(w, s, e);
    if e == |s| {
      assert line == s && (w + s)[..|w| + e] == w + s;
    } else {
      Regroup(w, TrimEnd(line), TrimLines(s[e + 1..]));
    }
  }

  lemma Regroup(w: string, line: string, rest: string)
    ensures (w + line) + "\n" + rest == w + (line + "\n" + rest)
  {
  }

  lemma UnifiedStart(s: string)
    requires s != "" && s[0] != '\r'
    ensures Unified(s) != "" && Unified(s)[0] == s[0]
  {
  }

  /** The indentation of the first line is lost, though in Markdown it can make the line code. */
  lemma FirstIndentIsLost(w: string, s: string)
    requires Spaces(w) && s != "" && !IsSpace(s[0])
    ensures Canonical(w + s) == Canonical(s)
  {
    hide TrimLines, TrimEnd, TrimStart, ReplaceCrLf, ReplaceChar;
    IndentCrLf(w, s);
    IndentCr(w, ReplaceCrLf(s));
    UnifiedStart(s);
    var u := Unified(s);
    IndentTrimLines(w, u);
    IndentTrimEnd(w, TrimLines(u));
    IndentIsBlank(w);
    TrimStartOf(w, TrimEnd(TrimLines(u)));
    TrimStartOf("", TrimEnd(TrimLines(u)));
    assert "" + TrimEnd(TrimLines(u)) == TrimEnd(TrimLines(u));
  }

  lemma IndentIsBlank(w: string)
    requires Spaces(w)
    ensures Blank(w)
  {
  }
}
