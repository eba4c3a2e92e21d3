/** build_llm_serving_dashboard.py: packing the panels of the serving dashboard. */
module Grid {

  datatype Panel = Panel(row: bool, x: int, y: int, w: int, h: int)

  const WIDTH := 24

  /** Where the next panel goes, and how high the current line is. */
  datatype Cursor = Cursor(x: int, y: int, lineH: int)

  const TOP := Cursor(0, 0, 0)

  function Max(a: int, b: int): int { if a < b then b else a }

  function Wrapped(c: Cursor, p: Panel): Cursor {
    if c.x > 0 && c.x + p.w > WIDTH then Cursor(0, c.y + c.lineH, 0) else c
  }

  function Put(c: Cursor, p: Panel): Panel {
    if p.row then Panel(true, 0, c.y + c.lineH, WIDTH, 1)
    else p.(x := Wrapped(c, p).x, y := Wrapped(c, p).y)
  }

  function Advance(c: Cursor, p: Panel): Cursor {
    if p.row then Cursor(0, c.y + c.lineH + 1, 0)
    else
      var b := Wrapped(c, p);
      var h := Max(b.lineH, p.h);
      if b.x + p.w >= WIDTH then Cursor(0, b.y + h, 0) else Cursor(b.x + p.w, b.y, h)
  }

  function Place(panels: seq<Panel>, c: Cursor): (r: seq<Panel>)
    ensures |r| == |panels|
  {
    if panels == [] then [] else [Put(c, panels[0])] + Place(panels[1..], Advance(c, panels[0]))
  }

  function CursorAt(panels: seq<Panel>, k: nat, c: Cursor): Cursor
    requires k <= |panels|
  {
    if k == 0 then c else CursorAt(panels[1..], k - 1, Advance(c, panels[0]))
  }

  lemma {:induction false} PlaceFrom(panels: seq<Panel>, k: nat, c: Cursor)
    requires k <= |panels|
    ensures Place(panels, c)[k..] == Place(panels[k..], CursorAt(panels, k, c))
  {
    if k > 0 {
      PlaceFrom(panels[1..], k - 1, Advance(c, panels[0]));
      assert Place(panels, c)[k..] == Place(panels[1..], Advance(c, panels[0]))[k - 1..];
      assert panels[1..][k - 1..] == panels[k..];
    }
  }

  lemma {:induction false} CursorNext(panels: seq<Panel>, k: nat, c: Cursor)
    requires k < |panels|
    ensures CursorAt(panels, k + 1, c) == Advance(CursorAt(panels, k, c), panels[k])
  {
    if k > 0 {
      assert panels[1..][k - 1] == panels[k];
      CursorNext(panels[1..], k - 1, Advance(c, panels[0]));
    } else {
      assert CursorAt(panels[1..], 0, Advance(c, panels[0])) == Advance(c, panels[0]);
    }
  }

  lemma PlaceAt(panels: seq<Panel>, k: nat)
    requires k < |panels|
    ensures Place(panels, TOP)[k] == Put(CursorAt(panels, k, TOP), panels[k])
    ensures CursorAt(panels, k + 1, TOP) == Advance(CursorAt(panels, k, TOP), panels[k])
  {
    PlaceFrom(panels, k, TOP);
    CursorNext(panels, k, TOP);
    assert Place(panels, TOP)[k] == Place(panels, TOP)[k..][0];
    assert panels[k..][0] == panels[k];
  }

  /** layout, in place. */
  method Layout(panels: array<Panel>)
    modifies panels
    ensures panels[..] == Place(old(panels[..]), TOP)
  {
    hide Place, CursorAt;
    ghost var given := panels[..];
    CursorStart(given);
    var y, x, lineH := 0, 0, 0;
    for k := 0 to panels.Length
      invariant Cursor(x, y, lineH) == CursorAt(given, k, TOP)
      invariant forall i | k <= i < panels.Length :: panels[i] == given[i]
      invariant forall i | 0 <= i < k :: panels[i] == Place(given, TOP)[i]
    {
      var p := panels[k];
      PlaceAt(given, k);
      if p.row {
        y := y + lineH;
        x, lineH := 0, 0;
        panels[k] := p.(x := 0, y := y, w := WIDTH, h := 1);
        y := y + 1;
      } else {
        if x > 0 && x + p.w > WIDTH {
          y := y + lineH;
          x, lineH := 0, 0;
        }
        panels[k] := p.(x := x, y := y);
        x := x + p.w;
        lineH := Max(lineH, p.h);
        if x >= WIDTH {
          y := y + lineH;
          x, lineH := 0, 0;
        }
      }
    }
  }

  lemma CursorStart(panels: seq<Panel>)
    ensures CursorAt(panels, 0, TOP) == TOP
  {
  }

  // ----- where the panels end up -----

  /** A panel that fits the grid. */
  predicate Fits(p: Panel) { p.row || (1 <= p.w <= WIDTH && p.h >= 1) }

  ghost predicate AllFit(panels: seq<Panel>) { forall k | 0 <= k < |panels| :: Fits(panels[k]) }

  predicate Good(c: Cursor) { 0 <= c.x < WIDTH && c.lineH >= 0 && (c.x == 0 <==> c.lineH == 0) }

  /** Inside the 24 columns. */
  predicate Inside(p: Panel) { 0 <= p.x && 1 <= p.w && p.x + p.w <= WIDTH && p.h >= 1 }

  /** To the right of p on its line, or below all of p: so the two do not overlap, and q is read after p. */
  predicate Follows(p: Panel, q: Panel) {
    || (!p.row && !q.row && q.y == p.y && p.x + p.w <= q.x)
    || p.y + p.h <= q.y
  }

  predicate Overlap(p: Panel, q: Panel) {
    p.x < q.x + q.w && q.x < p.x + p.w && p.y < q.y + q.h && q.y < p.y + p.h
  }

  /** At or after the cursor in reading order, clear of the line so far. */
  predicate Beyond(c: Cursor, q: Panel) {
    (!q.row && q.y == c.y && q.x >= c.x) || q.y >= c.y + c.lineH
  }

  lemma {:induction false} AllBeyond(panels: seq<Panel>, c: Cursor, k: nat)
    requires AllFit(panels) && Good(c) && k < |panels|
    ensures Beyond(c, Place(panels, c)[k]) && Inside(Place(panels, c)[k])
    ensures Place(panels, c)[k].row == panels[k].row
    decreases k
  {
    assert Fits(panels[0]);
    if k > 0 {
      assert panels[1..][k - 1] == panels[k];
      AllBeyond(panels[1..], Advance(c, panels[0]), k - 1);
    }
  }

  lemma {:induction false} InOrder(panels: seq<Panel>, c: Cursor, i: nat, j: nat)
    requires AllFit(panels) && Good(c) && i < j < |panels|
    ensures Follows(Place(panels, c)[i], Place(panels, c)[j])
    decreases i
  {
    assert Fits(panels[0]);
    if i == 0 {
      AllBeyond(panels[1..], Advance(c, panels[0]), j - 1);
    } else {
      InOrder(panels[1..], Advance(c, panels[0]), i - 1, j - 1);
    }
  }

  /** Placed panels lie inside the grid, never overlap, list order is reading order, and a row banner has everything
      before it above and everything after it below. */
  lemma LayoutIsSound(panels: seq<Panel>, i: nat, j: nat)
    requires AllFit(panels) && i < j < |panels|
    ensures var r := Place(panels, TOP);
            && Inside(r[i]) && Inside(r[j]) && r[i].y >= 0 && !Overlap(r[i], r[j])
            && (r[i].y < r[j].y || (r[i].y == r[j].y && r[i].x < r[j].x))
            && (panels[i].row ==> r[i].x == 0 && r[i].w == WIDTH && r[j].y >= r[i].y + 1)
            && (panels[j].row ==> r[i].y + r[i].h <= r[j].y)
  {
    AllBeyond(panels, TOP, i);
    AllBeyond(panels, TOP, j);
    InOrder(panels, TOP, i, j);
    PlaceFrom(panels, i, TOP);
    assert Place(panels, TOP)[i] == Place(panels, TOP)[i..][0];
  }

  /** Every single panel lies inside the grid and keeps its size, but for banners, which take a whole line of height 1. */
  lemma EachPanelIsInside(panels: seq<Panel>, i: nat)
    requires AllFit(panels) && i < |panels|
    ensures var q := Place(panels, TOP)[i];
            && Inside(q) && q.y >= 0 && q.row == panels[i].row
            && (if q.row then q.x == 0 && q.w == WIDTH && q.h == 1 else q.w == panels[i].w && q.h == panels[i].h)
  {
    AllBeyond(panels, TOP, i);
    PlaceAt(panels, i);
  }

  // ----- no gaps -----

  /** The lower edge of the first j panels. */
  ghost predicate IsBottom(placed: seq<Panel>, j: nat, y: int)
    requires j <= |placed|
  {
    if j == 0 then y == 0
    else (exists i | 0 <= i < j :: placed[i].y + placed[i].h == y) && forall i | 0 <= i < j :: placed[i].y + placed[i].h <= y
  }

  /** What the cursor knows of the panels before it. */
  ghost predicate Knows(panels: seq<Panel>, placed: seq<Panel>, j: nat, c: Cursor)
    requires |placed| == |panels| && j <= |panels|
  {
    && Good(c) && IsBottom(placed, j, c.y + c.lineH)
    && (c.x > 0 ==> j > 0 && !panels[j - 1].row && placed[j - 1].y == c.y && placed[j - 1].x + placed[j - 1].w == c.x)
    && (c.x == 0 && j > 0 ==> panels[j - 1].row || placed[j - 1].x + placed[j - 1].w >= WIDTH)
  }

  lemma BottomGrows(placed: seq<Panel>, j: nat, y: int)
    requires j < |placed| && IsBottom(placed, j, y)
    requires j == 0 ==> placed[0].y + placed[0].h >= 0
    ensures IsBottom(placed, j + 1, Max(y, placed[j].y + placed[j].h))
  {
    if j > 0 {
      var i :| 0 <= i < j && placed[i].y + placed[i].h == y;
      assert i < j + 1 && placed[j].y + placed[j].h == placed[j].y + placed[j].h;
    }
  }

  lemma {:induction false} CursorFollows(panels: seq<Panel>, j: nat)
    requires AllFit(panels) && j <= |panels|
    ensures Knows(panels, Place(panels, TOP), j, CursorAt(panels, j, TOP))
  {
    if j > 0 {
      CursorFollows(panels, j - 1);
      PlaceAt(panels, j - 1);
      assert Fits(panels[j - 1]);
      var c, placed := CursorAt(panels, j - 1, TOP), Place(panels, TOP);
      hide Place, CursorAt;
      BottomGrows(placed, j - 1, c.y + c.lineH);
    }
  }

  /** A panel goes right of the one before it when it still fits there; otherwise it starts a line, which like a banner lies
      directly under what is there so far. */
  lemma LayoutIsTight(panels: seq<Panel>, j: nat)
    requires AllFit(panels) && j < |panels|
    ensures var r := Place(panels, TOP);
            if j > 0 && !panels[j].row && !panels[j - 1].row && r[j - 1].x + r[j - 1].w + panels[j].w <= WIDTH
            then r[j].y == r[j - 1].y && r[j].x == r[j - 1].x + r[j - 1].w
            else r[j].x == 0 && IsBottom(r, j, r[j].y)
  {
    CursorFollows(panels, j);
    PlaceAt(panels, j);
    assert Fits(panels[j]);
    hide Place, CursorAt, IsBottom;
  }

  // ----- how tightly they are packed -----

  function TotalWidth(panels: seq<Panel>): int {
    if panels == [] then 0 else panels[0].w + TotalWidth(panels[1..])
  }

  /** The panels in column 0. */
  function Lines(placed: seq<Panel>): nat {
    if placed == [] then 0 else (if placed[0].x == 0 then 1 else 0) + Lines(placed[1..])
  }

  function Heights(placed: seq<Panel>): set<int> { set p | p in placed :: p.y }

  lemma HeightsOfMore(q: Panel, after: seq<Panel>)
    ensures Heights([q] + after) == {q.y} + Heights(after)
  {
    assert forall p | p in [q] + after :: p == q || p in after;
  }

  function OwnLine(c: Cursor): set<int> { if c.x > 0 then {c.y} else {} }

  /** The heights from a cursor on, with that of the line it is in, are as many as the lines. */
  ghost predicate Counted(placed: seq<Panel>, c: Cursor) {
    && (forall h | h in Heights(placed) :: h >= c.y)
    && |Heights(placed) + OwnLine(c)| == Lines(placed) + |OwnLine(c)|
  }

  lemma StaysOrMoves(p: Panel, c: Cursor)
    requires Fits(p) && !p.row && Good(c) && Wrapped(c, p) == c
    ensures Put(c, p).y == c.y && (Put(c, p).x == 0 <==> c.x <= 0)
    ensures if Advance(c, p).x > 0 then Advance(c, p).y == c.y else Advance(c, p).y > c.y
  {
  }

  lemma CountOne(p: Panel, c: Cursor, after: seq<Panel>)
    requires Fits(p) && !p.row && Good(c) && Wrapped(c, p) == c && Counted(after, Advance(c, p))
    ensures Counted([Put(c, p)] + after, c)
  {
    StaysOrMoves(p, c);
    hide Fits, Good, Wrapped, Put, Advance, Heights, Lines;
    var q, d := Put(c, p), Advance(c, p);
    HeightsOfMore(q, after);
    LinesOfMore(q, after);
    CountHeights(Heights(after), OwnLine(c), OwnLine(d), c.y, d.y);
  }

  /** A panel at height y adds that height, unless it is the one the line goes on at. */
  lemma CountHeights(heights: set<int>, own: set<int>, next: set<int>, y: int, nextY: int)
    requires own == {} || own == {y}
    requires if next == {} then nextY > y else next == {y} && nextY == y
    requires forall h | h in heights :: h >= nextY
    ensures |({y} + heights) + own| == |heights + next| - |next| + 1
  {
    assert ({y} + heights) + own == heights + {y};
    if next == {} { assert heights + {} == heights && y !in heights; }
  }

  lemma LinesOfMore(q: Panel, after: seq<Panel>)
    ensures Lines([q] + after) == (if q.x == 0 then 1 else 0) + Lines(after)
  {
    assert ([q] + after)[1..] == after;
  }

  lemma CountWrapped(placed: seq<Panel>, b: Cursor, c: Cursor)
    requires Good(c) && c.x > 0 && b == Cursor(0, c.y + c.lineH, 0) && Counted(placed, b)
    ensures Counted(placed, c)
  {
    hide Heights, Lines;
    assert Heights(placed) + {} == Heights(placed) && c.y !in Heights(placed);
  }

  lemma {:induction false} LinesAreHeights(panels: seq<Panel>, c: Cursor)
    requires AllFit(panels) && Section(panels) && Good(c)
    ensures Counted(Place(panels, c), c)
    decreases |panels|, if c.x > 0 then 1 else 0
  {
    if panels == [] {
      assert Heights([]) == {};
      return;
    }
    hide Counted, Heights, Lines;
    var p, rest := panels[0], panels[1..];
    assert Fits(p);
    var b := Wrapped(c, p);
    if b != c {
      LinesAreHeights(panels, b);
      assert Place(panels, b) == Place(panels, c);
      CountWrapped(Place(panels, c), b, c);
    } else {
      LinesAreHeights(rest, Advance(c, p));
      CountOne(p, c, Place(rest, Advance(c, p)));
    }
  }

  /** The lines of a section are its distinct heights. */
  lemma SectionLines(panels: seq<Panel>, i: nat, j: nat)
    requires AllFit(panels) && i <= j <= |panels| && Section(panels[i..j]) && (i == 0 || panels[i - 1].row)
    ensures Lines(Place(panels, TOP)[i..j]) == |Heights(Place(panels, TOP)[i..j])|
  {
    hide Place, CursorAt, Lines, Heights;
    SectionStarts(panels, i);
    var c, section := CursorAt(panels, i, TOP), panels[i..j];
    PlaceSlice(panels, i, j);
    assert forall k | 0 <= k < |section| :: section[k] == panels[i + k];
    LinesAreHeights(section, c);
    assert Heights(Place(section, c)) + {} == Heights(Place(section, c));
  }

  function Min(a: int, b: int): int { if a < b then a else b }

  predicate Section(panels: seq<Panel>) { forall k | 0 <= k < |panels| :: !panels[k].row }

  /** Two neighbouring lines are together wider than the grid; x is what is already on the current line. */
  lemma {:induction false} LinesAreFull(panels: seq<Panel>, c: Cursor)
    requires AllFit(panels) && Section(panels) && Good(c)
    ensures FullLines(Lines(Place(panels, c)), TotalWidth(panels), c.x)
    decreases |panels|
  {
    if panels != [] {
      var p, rest := panels[0], panels[1..];
      assert Fits(p);
      LinesAreFull(rest, Advance(c, p));
      assert Place(panels, c) == [Put(c, p)] + Place(rest, Advance(c, p));
      hide Place, Lines, FullLines;
      LinesOfMore(Put(c, p), Place(rest, Advance(c, p)));
      OneMorePanel(p, c, Lines(Place(rest, Advance(c, p))), TotalWidth(rest));
    }
  }

  predicate FullLines(n: nat, width: int, x: int) {
    width >= 0 && if x == 0 then n == 0 || width > 12 * (n - 1) else x + width >= 12 * n + Min(x, 12)
  }

  lemma OneMorePanel(p: Panel, c: Cursor, n: nat, width: int)
    requires Fits(p) && !p.row && Good(c) && FullLines(n, width, Advance(c, p).x)
    ensures FullLines((if Put(c, p).x == 0 then 1 else 0) + n, p.w + width, c.x)
  {
  }

  /** A section between banners, of total width W, has fewer than W/12 + 1 different heights. */
  lemma SectionIsCompact(panels: seq<Panel>, i: nat, j: nat)
    requires AllFit(panels) && i <= j <= |panels| && Section(panels[i..j]) && (i == 0 || panels[i - 1].row)
    ensures var n := |Heights(Place(panels, TOP)[i..j])|; n == 0 || 12 * (n - 1) < TotalWidth(panels[i..j])
  {
    hide Place, CursorAt, Lines, TotalWidth, Heights;
    SectionStarts(panels, i);
    var c, section := CursorAt(panels, i, TOP), panels[i..j];
    PlaceSlice(panels, i, j);
    assert forall k | 0 <= k < |section| :: section[k] == panels[i + k];
    LinesAreFull(section, c);
    SectionLines(panels, i, j);
  }

  lemma PlaceSlice(panels: seq<Panel>, i: nat, j: nat)
    requires i <= j <= |panels|
    ensures Place(panels, TOP)[i..j] == Place(panels[i..j], CursorAt(panels, i, TOP))
  {
    hide Place, CursorAt;
    PlaceFrom(panels, i, TOP);
    PlacePrefix(panels[i..], j - i, CursorAt(panels, i, TOP));
    assert Place(panels, TOP)[i..j] == Place(panels, TOP)[i..][..j - i];
    assert panels[i..][..j - i] == panels[i..j];
  }

  lemma SectionStarts(panels: seq<Panel>, i: nat)
    requires i <= |panels| && (i == 0 || panels[i - 1].row)
    ensures CursorAt(panels, i, TOP).x == 0 && CursorAt(panels, i, TOP).lineH == 0
  {
    if i > 0 { CursorNext(panels, i - 1, TOP); }
  }

  lemma {:induction false} PlacePrefix(panels: seq<Panel>, n: nat, c: Cursor)
    requires n <= |panels|
    ensures Place(panels, c)[..n] == Place(panels[..n], c)
  {
    if n > 0 {
      PlacePrefix(panels[1..], n - 1, Advance(c, panels[0]));
      assert panels[..n][1..] == panels[1..][..n - 1];
      assert Place(panels, c)[..n] == [Put(c, panels[0])] + Place(panels[1..], Advance(c, panels[0]))[..n - 1];
    }
  }
}
