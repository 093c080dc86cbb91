/**
 * The chart canvas: a (Height + 2) x (width + 2) grid of characters, filled in place
 * by the vertical gridline pass, the horizontal gridline pass and the plotting pass.
 */
module Canvas {
  import opened Wrappers

  /** The vertical resolution of the chart. */
  const Height := 20

  const Blank := ' '
  /** The vertical gridline glyph, U+22EE. */
  const VerticalRule := '\U{22EE}'
  /** The horizontal gridline glyph, U+22C5. */
  const HorizontalRule := '\U{22C5}'

  /** The series glyphs: close, open, high and low; no other name has one. */
  function Glyph(name: string): Option<char>
  {
    if name == "close" then Some('\U{2B24}')
    else if name == "open" then Some('\U{25EF}')
    else if name == "high" then Some('\U{25B3}')
    else if name == "low" then Some('\U{25BD}')
    else None
  }

  /** Each known name has its own glyph, and none is blank or a gridline glyph. */
  lemma GlyphsDistinct(a: string, b: string)
    requires Glyph(a).Some? && Glyph(b).Some?
    ensures Glyph(a) == Glyph(b) <==> a == b
    ensures Glyph(a).value != Blank && Glyph(a).value != VerticalRule && Glyph(a).value != HorizontalRule
  {
  }

  /** What the vertical pass leaves in a cell that held `ch`. */
  function AfterVertical(ch: char, y: int, x: int): char
  {
    if x % 3 == 0 && y <= Height && ch == Blank then VerticalRule else ch
  }

  /** What the horizontal pass leaves in a cell that held `ch`. */
  function AfterHorizontal(ch: char, y: int, x: int): char
  {
    if y % 4 == 0 && y <= Height && ch == Blank then HorizontalRule else ch
  }

  /** The background a blank canvas shows after both gridline passes. */
  function GridCell(y: int, x: int): char
  {
    if y > Height then Blank
    else if x % 3 == 0 then VerticalRule
    else if y % 4 == 0 then HorizontalRule
    else Blank
  }

  /**
   * The two passes, vertical first and each only into blank cells, give the background:
   * a vertical rule wins at every crossing.
   */
  lemma GridlinePasses(y: int, x: int)
    requires 0 <= y && 0 <= x
    ensures AfterHorizontal(AfterVertical(Blank, y, x), y, x) == GridCell(y, x)
    ensures y <= Height && x % 3 == 0 ==> GridCell(y, x) == VerticalRule
    ensures y <= Height && x % 3 != 0 && y % 4 == 0 ==> GridCell(y, x) == HorizontalRule
    ensures (y > Height || (x % 3 != 0 && y % 4 != 0)) ==> GridCell(y, x) == Blank
  {
  }

  /** One normalized series as the plotting loop sees it: a name and the row of each point. */
  type Plot = (string, seq<int>)

  /** Whether plotting `rows` writes cell (y, x): point i goes to row Height - 1 - rows[i], column 3i + 1. */
  predicate Hits(rows: seq<int>, y: int, x: int)
  {
    0 <= x && x % 3 == 1 && x / 3 < |rows| && y == Height - 1 - rows[x / 3]
  }

  /** Column 3i + 1 is point i's column, and it is never a gridline column. */
  lemma PointColumn(rows: seq<int>, i: int)
    requires 0 <= i < |rows|
    ensures Hits(rows, Height - 1 - rows[i], 3 * i + 1)
    ensures (3 * i + 1) % 3 != 0
  {
  }

  /** The glyph of a plot, or blank for a name without one (the plotting loop never reaches that case). */
  function GlyphOf(name: string): char
  {
    match Glyph(name)
    case Some(g) => g
    case None => Blank
  }

  /**
   * A cell that held `bg` after plotting `plots` in order: the glyph of the last series
   * that writes the cell, or `bg` if none does.
   */
  function CellAfterPlots(bg: char, plots: seq<Plot>, y: int, x: int): char
    decreases |plots|
  {
    if plots == [] then bg
    else if Hits(plots[|plots| - 1].1, y, x) then GlyphOf(plots[|plots| - 1].0)
    else CellAfterPlots(bg, plots[..|plots| - 1], y, x)
  }

  /** Later series win: the last series that writes a cell decides it. */
  lemma {:induction false} LastWriterWins(bg: char, plots: seq<Plot>, y: int, x: int, j: int)
    requires 0 <= j < |plots| && Hits(plots[j].1, y, x)
    requires forall k :: j < k < |plots| ==> !Hits(plots[k].1, y, x)
    ensures CellAfterPlots(bg, plots, y, x) == GlyphOf(plots[j].0)
    decreases |plots|
  {
    if j < |plots| - 1 {
      var init := plots[..|plots| - 1];
      assert forall k :: 0 <= k < |init| ==> init[k] == plots[k];
      LastWriterWins(bg, init, y, x, j);
    }
  }

  /** A cell that no series writes keeps its background. */
  lemma {:induction false} UnwrittenCellKept(bg: char, plots: seq<Plot>, y: int, x: int)
    requires forall k :: 0 <= k < |plots| ==> !Hits(plots[k].1, y, x)
    ensures CellAfterPlots(bg, plots, y, x) == bg
    decreases |plots|
  {
    if plots != [] {
      var init := plots[..|plots| - 1];
      assert forall k :: 0 <= k < |init| ==> init[k] == plots[k];
      UnwrittenCellKept(bg, init, y, x);
    }
  }

  /** The canvas of the source, every cell a space. */
  method NewCanvas(width: nat) returns (c: array2<char>)
    ensures fresh(c) && c.Length0 == Height + 2 && c.Length1 == width + 2
    ensures forall y, x :: 0 <= y < c.Length0 && 0 <= x < c.Length1 ==> c[y, x] == Blank
  {
    c := new char[Height + 2, width + 2]((_, _) => Blank);
  }

  /** Vertical gridlines: every third column, rows 0..Height, only into blank cells. */
  method DrawVerticalGridlines(c: array2<char>)
    requires c.Length0 == Height + 2
    modifies c
    ensures forall y, x :: 0 <= y < c.Length0 && 0 <= x < c.Length1 ==>
      c[y, x] == AfterVertical(old(c[y, x]), y, x)
  {
    var x := 0;
    while x < c.Length1
      invariant 0 <= x && x % 3 == 0
      invariant forall y', x' :: 0 <= y' < c.Length0 && 0 <= x' < c.Length1 ==>
        c[y', x'] == if x' < x then AfterVertical(old(c[y', x']), y', x') else old(c[y', x'])
    {
      for y := 0 to Height + 1
        invariant forall y', x' :: 0 <= y' < c.Length0 && 0 <= x' < c.Length1 ==>
          c[y', x'] == if x' < x || (x' == x && y' < y) then AfterVertical(old(c[y', x']), y', x') else old(c[y', x'])
      {
        if c[y, x] == Blank {
          c[y, x] := VerticalRule;
        }
      }
      x := x + 3;
    }
  }

  /** Horizontal gridlines: every fourth row among 0..Height, all columns, only into blank cells. */
  method DrawHorizontalGridlines(c: array2<char>)
    requires c.Length0 == Height + 2
    modifies c
    ensures forall y, x :: 0 <= y < c.Length0 && 0 <= x < c.Length1 ==>
      c[y, x] == AfterHorizontal(old(c[y, x]), y, x)
  {
    for y := 0 to Height + 1
      invariant forall y', x' :: 0 <= y' < c.Length0 && 0 <= x' < c.Length1 ==>
        c[y', x'] == if y' < y then AfterHorizontal(old(c[y', x']), y', x') else old(c[y', x'])
    {
      if y % 4 == 0 {
        for x := 0 to c.Length1
          invariant forall y', x' :: 0 <= y' < c.Length0 && 0 <= x' < c.Length1 ==>
            c[y', x'] == if y' < y || (y' == y && x' < x) then AfterHorizontal(old(c[y', x']), y', x') else old(c[y', x'])
        {
          if c[y, x] == Blank {
            c[y, x] := HorizontalRule;
          }
        }
      }
    }
  }

  /** Plots one series: its glyph at row Height - 1 - rows[i], column 3i + 1, for each point i. */
  method PlotSeries(c: array2<char>, glyph: char, rows: seq<int>)
    requires c.Length0 == Height + 2 && 3 * |rows| <= c.Length1 + 1
    requires forall i :: 0 <= i < |rows| ==> 0 <= rows[i] < Height
    modifies c
    ensures forall y, x :: 0 <= y < c.Length0 && 0 <= x < c.Length1 ==>
      c[y, x] == if Hits(rows, y, x) then glyph else old(c[y, x])
  {
    for i := 0 to |rows|
      invariant forall y', x' :: 0 <= y' < c.Length0 && 0 <= x' < c.Length1 ==>
        c[y', x'] == if Hits(rows[..i], y', x') then glyph else old(c[y', x'])
    {
      var x := i * 3 + 1;
      var y := Height - rows[i] - 1;
      assert x / 3 == i && x % 3 == 1;
      c[y, x] := glyph;
    }
    assert rows[..|rows|] == rows;
  }

  /**
   * The plotting loop: each series in order, its glyph looked up by name. It stops with
   * the first name that has no glyph (the source's KeyError); otherwise every cell is as
   * CellAfterPlots says.
   */
  method PlotAll(c: array2<char>, plots: seq<Plot>) returns (missing: Option<string>)
    requires c.Length0 == Height + 2
    requires forall k :: 0 <= k < |plots| ==> 3 * |plots[k].1| <= c.Length1 + 1
    requires forall k, i :: 0 <= k < |plots| && 0 <= i < |plots[k].1| ==> 0 <= plots[k].1[i] < Height
    modifies c
    ensures missing == FirstUnknown(plots)
    ensures missing == None ==> forall y, x :: 0 <= y < c.Length0 && 0 <= x < c.Length1 ==>
      c[y, x] == CellAfterPlots(old(c[y, x]), plots, y, x)
  {
    for k := 0 to |plots|
      invariant FirstUnknown(plots[..k]) == None
      invariant forall y, x :: 0 <= y < c.Length0 && 0 <= x < c.Length1 ==>
        c[y, x] == CellAfterPlots(old(c[y, x]), plots[..k], y, x)
    {
      FirstUnknownAppend(plots[..k], plots[k]);
      assert plots[..k + 1] == plots[..k] + [plots[k]];
      match Glyph(plots[k].0) {
        case None =>
          FirstUnknownPrefix(plots, k);
          return Some(plots[k].0);
        case Some(glyph) =>
          PlotSeries(c, glyph, plots[k].1);
          assert plots[..k + 1][..k] == plots[..k];
      }
    }
    assert plots[..|plots|] == plots;
    missing := None;
  }

  /** The first name, in order, that has no glyph. */
  function FirstUnknown<T>(items: seq<(string, T)>): Option<string>
    decreases |items|
  {
    if items == [] then None
    else if Glyph(items[0].0).None? then Some(items[0].0)
    else FirstUnknown(items[1..])
  }

  /** No name lacks a glyph exactly when every name has one. */
  lemma {:induction false} FirstUnknownNone<T>(items: seq<(string, T)>)
    ensures FirstUnknown(items) == None <==> forall k :: 0 <= k < |items| ==> Glyph(items[k].0).Some?
    decreases |items|
  {
    if items != [] {
      FirstUnknownNone(items[1..]);
      assert forall k :: 1 <= k < |items| ==> items[1..][k - 1] == items[k];
    }
  }

  /** The first unknown name is a name of the input that has no glyph, and every earlier name has one. */
  lemma {:induction false} FirstUnknownSome<T>(items: seq<(string, T)>)
    requires FirstUnknown(items).Some?
    ensures exists j :: (0 <= j < |items| && items[j].0 == FirstUnknown(items).value && Glyph(items[j].0) == None &&
                         forall k :: 0 <= k < j ==> Glyph(items[k].0).Some?)
    decreases |items|
  {
    if Glyph(items[0].0).Some? {
      FirstUnknownSome(items[1..]);
      var j :| 0 <= j < |items[1..]| && items[1..][j].0 == FirstUnknown(items[1..]).value && Glyph(items[1..][j].0) == None &&
        (forall k :: 0 <= k < j ==> Glyph(items[1..][k].0).Some?);
      assert items[j + 1] == items[1..][j];
      assert forall k :: 1 <= k < j + 1 ==> items[k] == items[1..][k - 1];
    }
  }

  lemma {:induction false} FirstUnknownAppend<T>(items: seq<(string, T)>, last: (string, T))
    requires FirstUnknown(items) == None
    ensures FirstUnknown(items + [last]) == if Glyph(last.0).None? then Some(last.0) else None
    decreases |items|
  {
    if items == [] {
      assert items + [last] == [last];
    } else {
      assert (items + [last])[1..] == items[1..] + [last];
      FirstUnknownAppend(items[1..], last);
    }
  }

  /** Stopping at the first unknown name of a prefix whose earlier names are all known finds FirstUnknown. */
  lemma {:induction false} FirstUnknownPrefix<T>(items: seq<(string, T)>, k: int)
    requires 0 <= k < |items|
    requires FirstUnknown(items[..k]) == None && Glyph(items[k].0) == None
    ensures FirstUnknown(items) == Some(items[k].0)
    decreases k
  {
    if k > 0 {
      assert items[..k][0] == items[0];
      assert items[..k][1..] == items[1..][..k - 1];
      FirstUnknownPrefix(items[1..], k - 1);
    }
  }

  /** Only the names decide FirstUnknown: two lists with the same names agree on it. */
  lemma {:induction false} FirstUnknownSameNames<T, U>(a: seq<(string, T)>, b: seq<(string, U)>)
    requires |a| == |b| && forall k :: 0 <= k < |a| ==> a[k].0 == b[k].0
    ensures FirstUnknown(a) == FirstUnknown(b)
    decreases |a|
  {
    if a != [] {
      FirstUnknownSameNames(a[1..], b[1..]);
    }
  }
}
