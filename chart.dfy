/**
 * `generate_multi_series_ascii_graph`: the padded range over all series, the
 * normalized rows, the canvas with its gridlines and plotted glyphs, and the lines
 * of the chart around it. `Chart` states the result; `GenerateGraph` computes it the
 * way the source does, step by step on a mutable canvas.
 */
module Chart {
  import opened Wrappers
  import opened Text
  import Scaler
  import opened Canvas
  import opened Layout

  /** The two exceptions the chart code raises: max() of no points, and a series name without a glyph. */
  datatype ChartError = NoData | UnknownSeries(name: string)

  /**
   * What the callers guarantee: one series per distinct name, each as long as the timestamp
   * list, and timestamps that `strptime` accepts.
   */
  predicate WellFormedInput(data: seq<Scaler.Series>, timestamps: seq<string>)
  {
    && (forall k :: 0 <= k < |data| ==> |data[k].1| == |timestamps|)
    && (forall k, l :: 0 <= k < l < |data| ==> data[k].0 != data[l].0)
    && (forall t :: 0 <= t < |timestamps| ==> WellFormedTimestamp(timestamps[t]))
  }

  /** The names in order: the dictionary's keys. */
  function Names<T>(items: seq<(string, T)>): (names: seq<string>)
    ensures |names| == |items|
    ensures forall k :: 0 <= k < |items| ==> names[k] == items[k].0
  {
    seq(|items|, k requires 0 <= k < |items| => items[k].0)
  }

  /** Every series normalized against the one shared range, in order. */
  function Normalized(data: seq<Scaler.Series>, lo: real, hi: real): (plots: seq<Plot>)
    ensures |plots| == |data|
    ensures forall k :: 0 <= k < |data| ==> plots[k] == (data[k].0, Scaler.NormalizePrices(data[k].1, lo, hi, Height))
  {
    seq(|data|, k requires 0 <= k < |data| => (data[k].0, Scaler.NormalizePrices(data[k].1, lo, hi, Height)))
  }

  /** The price that grid row i stands for: `max - i * (max - min) / (Height - 1)`. */
  function RowPrice(lo: real, hi: real, i: int): real
  {
    hi - (i as real) * ((hi - lo) / (Height - 1) as real)
  }

  /** Row y of the finished canvas: background, then the plotted glyphs, as a string. */
  function CanvasRow(plots: seq<Plot>, y: int, width: nat): (row: string)
    ensures |row| == width + 2
  {
    seq(width + 2, x => CellAfterPlots(GridCell(y, x), plots, y, x))
  }

  /** The labelled rows 0..Height; row Height + 1 of the canvas is not printed. */
  function GridLines(plots: seq<Plot>, lo: real, hi: real, width: nat, fmt: real -> string): (lines: seq<string>)
    ensures |lines| == Height + 1
  {
    seq(Height + 1, i => RowLine(width + 30, fmt(RowPrice(lo, hi, i)), CanvasRow(plots, i, width)))
  }

  /** Top border, title, legend and the blank line. */
  function HeaderLines(totalWidth: int, names: seq<string>): seq<string>
  {
    [TopBorder(totalWidth), TitleLine(totalWidth), LegendLine(totalWidth, names), BlankLine(totalWidth)]
  }

  /** The `HH:MM` marker of every timestamp, in order. */
  function Markers(timestamps: seq<string>): (markers: seq<string>)
    requires forall t :: 0 <= t < |timestamps| ==> WellFormedTimestamp(timestamps[t])
    ensures |markers| == |timestamps|
  {
    seq(|timestamps|, t requires 0 <= t < |timestamps| => HourMinute(timestamps[t]))
  }

  /** X axis, time labels and the bottom border. */
  function FooterLines(totalWidth: int, width: int, timestamps: seq<string>): seq<string>
    requires forall t :: 0 <= t < |timestamps| ==> WellFormedTimestamp(timestamps[t])
  {
    [AxisLine(totalWidth, width), TimeLine(totalWidth, TimeText(Markers(timestamps))), BottomBorder(totalWidth)]
  }

  /** All lines of a chart whose canvas holds `plots`. */
  function ChartLines(names: seq<string>, plots: seq<Plot>, timestamps: seq<string>, lo: real, hi: real,
                      fmt: real -> string): seq<string>
    requires forall t :: 0 <= t < |timestamps| ==> WellFormedTimestamp(timestamps[t])
  {
    var width := 3 * |timestamps|;
    HeaderLines(width + 30, names) + GridLines(plots, lo, hi, width, fmt) + FooterLines(width + 30, width, timestamps)
  }

  /**
   * The chart of `data` over `timestamps`; `fmt` is the `8.2f` formatting of a price label.
   * The lines are joined with newlines by the source.
   */
  function Chart(data: seq<Scaler.Series>, timestamps: seq<string>, fmt: real -> string): Result<seq<string>, ChartError>
    requires WellFormedInput(data, timestamps)
  {
    var all := Scaler.Flatten(data);
    if all == [] then Failure(NoData)
    else
      var (lo, hi) := Scaler.PaddedRange(all);
      var plots := Normalized(data, lo, hi);
      match FirstUnknown(plots)
      case Some(name) => Failure(UnknownSeries(name))
      case None => Success(ChartLines(Names(data), plots, timestamps, lo, hi, fmt))
  }

  // ---- Proofs about the specification ----

  /** Every point of every series lies inside the padded range, whose bounds are ordered. */
  lemma SeriesInPaddedRange(data: seq<Scaler.Series>)
    requires Scaler.Flatten(data) != []
    ensures Scaler.PaddedRange(Scaler.Flatten(data)).0 <= Scaler.PaddedRange(Scaler.Flatten(data)).1
    ensures forall k, i :: 0 <= k < |data| && 0 <= i < |data[k].1| ==>
      Scaler.PaddedRange(Scaler.Flatten(data)).0 <= data[k].1[i] <= Scaler.PaddedRange(Scaler.Flatten(data)).1
  {
    var all := Scaler.Flatten(data);
    Scaler.PaddedRangeContains(all, 0);
    forall k, i | 0 <= k < |data| && 0 <= i < |data[k].1|
      ensures Scaler.PaddedRange(all).0 <= data[k].1[i] <= Scaler.PaddedRange(all).1
    {
      Scaler.FlattenMembers(data, data[k].1[i]);
      var j :| 0 <= j < |all| && all[j] == data[k].1[i];
      Scaler.PaddedRangeContains(all, j);
    }
  }

  /** Every normalized row of the chart lies in [0, Height - 1], so every glyph lands on rows 0..Height-1. */
  lemma PlotsInRange(data: seq<Scaler.Series>)
    requires Scaler.Flatten(data) != []
    ensures var (lo, hi) := Scaler.PaddedRange(Scaler.Flatten(data));
      forall k, i :: 0 <= k < |data| && 0 <= i < |data[k].1| ==>
        0 <= Normalized(data, lo, hi)[k].1[i] < Height
  {
    var (lo, hi) := Scaler.PaddedRange(Scaler.Flatten(data));
    SeriesInPaddedRange(data);
    forall k | 0 <= k < |data|
      ensures forall i :: 0 <= i < |data[k].1| ==> 0 <= Normalized(data, lo, hi)[k].1[i] < Height
    {
      Scaler.NormalizeInRange(data[k].1, lo, hi, Height);
    }
  }

  /** (k r) / (1.2 r) == k / 1.2 for r > 0. */
  lemma ScaledFraction(r: real, k: real)
    requires r > 0.0
    ensures (k * r) / (1.2 * r) == k / 1.2
  {
    var q := (k * r) / (1.2 * r);
    assert q * (1.2 * r) == k * r;
    assert (q * 1.2 - k) * r == 0.0;
  }

  /** The raw minimum and maximum, against the range padded by a tenth, land on rows 1 and 17. */
  lemma PaddedExtremeRows(mn: real, mx: real)
    requires mn < mx
    ensures var padding := (mx - mn) * 0.1;
      && Scaler.Row(mn, mn - padding, mx + padding, Height) == 1
      && Scaler.Row(mx, mn - padding, mx + padding, Height) == 17
  {
    var r := mx - mn;
    var padding := r * 0.1;
    var lo, hi := mn - padding, mx + padding;
    assert hi - lo == 1.2 * r;
    assert mn - lo == 0.1 * r;
    assert mx - lo == 1.1 * r;
    ScaledFraction(r, 0.1);
    ScaledFraction(r, 1.1);
    assert (mn - lo) / (hi - lo) * 19.0 == 19.0 / 12.0;
    assert (mx - lo) / (hi - lo) * 19.0 == 209.0 / 12.0;
  }

  /**
   * With a non-degenerate raw range [mn, mx], the padding keeps every raw point off the
   * extreme rows: its normalized row is between 1 and 17, so it is drawn on a canvas row
   * between 2 and 18.
   */
  lemma PaddedRowBand(mn: real, mx: real, p: real)
    requires mn < mx && mn <= p <= mx
    ensures var padding := (mx - mn) * 0.1;
      1 <= Scaler.Row(p, mn - padding, mx + padding, Height) <= 17
  {
    var padding := (mx - mn) * 0.1;
    var lo, hi := mn - padding, mx + padding;
    assert padding > 0.0;
    PaddedExtremeRows(mn, mx);
    Scaler.RowMonotone(mn, p, lo, hi, Height);
    Scaler.RowMonotone(p, mx, lo, hi, Height);
  }

  /** When every point has the same value, every series is normalized to row 0: the canvas's row Height - 1. */
  lemma DegenerateRange(data: seq<Scaler.Series>)
    requires Scaler.Flatten(data) != []
    requires forall i :: 0 <= i < |Scaler.Flatten(data)| ==> Scaler.Flatten(data)[i] == Scaler.Flatten(data)[0]
    ensures var (lo, hi) := Scaler.PaddedRange(Scaler.Flatten(data));
      forall k, i :: 0 <= k < |data| && 0 <= i < |data[k].1| ==> Normalized(data, lo, hi)[k].1[i] == 0
  {
    Scaler.PaddedRangeDegenerate(Scaler.Flatten(data));
  }

  /** Row 0 is labelled with the padded maximum and row Height - 1 with the padded minimum; labels descend. */
  lemma RowPriceEnds(lo: real, hi: real, i: int, j: int)
    requires lo < hi && i < j
    ensures RowPrice(lo, hi, 0) == hi
    ensures RowPrice(lo, hi, Height - 1) == lo
    ensures RowPrice(lo, hi, j) < RowPrice(lo, hi, i)
  {
    var step := (hi - lo) / (Height - 1) as real;
    assert step > 0.0;
    assert (Height - 1) as real * step == hi - lo;
    assert (j as real) * step - (i as real) * step == (j - i) as real * step;
  }

  /** A plotted point whose cell no later series writes shows its series' glyph. */
  lemma PointShown(plots: seq<Plot>, width: nat, k: int, i: int)
    requires 0 <= k < |plots| && 0 <= i < |plots[k].1| && 3 * i + 1 < width + 2
    requires forall l :: k < l < |plots| ==> !Hits(plots[l].1, Height - 1 - plots[k].1[i], 3 * i + 1)
    ensures CanvasRow(plots, Height - 1 - plots[k].1[i], width)[3 * i + 1] == GlyphOf(plots[k].0)
  {
    var y := Height - 1 - plots[k].1[i];
    PointColumn(plots[k].1, i);
    LastWriterWins(GridCell(y, 3 * i + 1), plots, y, 3 * i + 1, k);
  }

  /** Gridline columns are never written by a series: they show the background in every row. */
  lemma GridColumnsKept(plots: seq<Plot>, width: nat, y: int, x: int)
    requires 0 <= x < width + 2 && x % 3 == 0
    ensures CanvasRow(plots, y, width)[x] == GridCell(y, x)
  {
    UnwrittenCellKept(GridCell(y, x), plots, y, x);
  }

  /**
   * A chart fails with NoData exactly when there are no points. It fails with UnknownSeries
   * for the first series, in dictionary order, whose name has no glyph.
   */
  lemma ChartOutcome(data: seq<Scaler.Series>, timestamps: seq<string>, fmt: real -> string)
    requires WellFormedInput(data, timestamps)
    ensures Chart(data, timestamps, fmt) == Failure(NoData) <==> (|data| == 0 || |timestamps| == 0)
    ensures Chart(data, timestamps, fmt).Success? <==>
      (|data| > 0 && |timestamps| > 0 && forall k :: 0 <= k < |data| ==> Glyph(data[k].0).Some?)
    ensures Chart(data, timestamps, fmt).Failure? && Chart(data, timestamps, fmt).error.UnknownSeries? ==>
      exists k :: (0 <= k < |data| && data[k].0 == Chart(data, timestamps, fmt).error.name && Glyph(data[k].0) == None &&
                   forall l :: 0 <= l < k ==> Glyph(data[l].0).Some?)
  {
    var all := Scaler.Flatten(data);
    Scaler.FlattenLength(data, |timestamps|);
    if all != [] {
      var (lo, hi) := Scaler.PaddedRange(all);
      var plots := Normalized(data, lo, hi);
      FirstUnknownSameNames(plots, data);
      FirstUnknownNone(data);
      if FirstUnknown(data).Some? {
        FirstUnknownSome(data);
      }
    }
  }

  /** The price labels of rows 0..Height have at most 24 characters, as the `8.2f` text of any price of magnitude below 10^20 has. */
  predicate LabelsFit(fmt: real -> string, lo: real, hi: real)
  {
    forall i :: 0 <= i <= Height ==> |fmt(RowPrice(lo, hi, i))| <= 24
  }

  /** Every labelled row is the total width when its price text has at most 24 characters. */
  lemma GridLinesWidth(plots: seq<Plot>, lo: real, hi: real, width: nat, fmt: real -> string)
    requires LabelsFit(fmt, lo, hi)
    ensures forall i :: 0 <= i < Height + 1 ==> |GridLines(plots, lo, hi, width, fmt)[i]| == width + 30
  {
    var grid := GridLines(plots, lo, hi, width, fmt);
    forall i | 0 <= i < Height + 1 ensures |grid[i]| == width + 30 {
      RowLineWidth(width, fmt(RowPrice(lo, hi, i)), CanvasRow(plots, i, width));
    }
  }

  /** The footer over n >= 1 timestamps: X-axis line one wider than the frame, time line max(frame, 7n + 11). */
  lemma FooterWidths(timestamps: seq<string>)
    requires |timestamps| >= 1
    requires forall t :: 0 <= t < |timestamps| ==> WellFormedTimestamp(timestamps[t])
    ensures var width := 3 * |timestamps|;
      var footer := FooterLines(width + 30, width, timestamps);
      && |footer[0]| == width + 31
      && |footer[1]| == Max(width + 30, 7 * |timestamps| + 11)
      && |footer[2]| == width + 30
  {
    var width := 3 * |timestamps|;
    AxisLineWidth(width);
    var markers := Markers(timestamps);
    TimeTextLength(markers);
    TimeLineWidth(width + 30, TimeText(markers));
    FrameWidths(width + 30);
  }

  /** A chart that succeeds is ChartLines of its names, its normalized series and its padded range. */
  lemma ChartValue(data: seq<Scaler.Series>, timestamps: seq<string>, fmt: real -> string)
    requires WellFormedInput(data, timestamps)
    requires Chart(data, timestamps, fmt).Success?
    ensures Scaler.Flatten(data) != []
    ensures var (lo, hi) := Scaler.PaddedRange(Scaler.Flatten(data));
      Chart(data, timestamps, fmt).value == ChartLines(Names(data), Normalized(data, lo, hi), timestamps, lo, hi, fmt)
  {
  }

  /** The shape of ChartLines: 4 + (Height + 1) + 3 lines of the widths ChartShape states. */
  lemma ChartLinesShape(names: seq<string>, plots: seq<Plot>, timestamps: seq<string>, lo: real, hi: real,
                        fmt: real -> string)
    requires |timestamps| >= 1
    requires forall t :: 0 <= t < |timestamps| ==> WellFormedTimestamp(timestamps[t])
    requires LabelsFit(fmt, lo, hi)
    ensures var lines := ChartLines(names, plots, timestamps, lo, hi, fmt);
      var n := |timestamps|;
      var totalWidth := 3 * n + 30;
      && |lines| == 4 + (Height + 1) + 3
      && |lines[0]| == totalWidth && |lines[1]| == totalWidth && |lines[3]| == totalWidth
      && (forall i :: 4 <= i < 4 + Height + 1 ==> |lines[i]| == totalWidth)
      && |lines[4 + Height + 1]| == totalWidth + 1
      && |lines[4 + Height + 2]| == Max(totalWidth, 7 * n + 11)
      && |lines[4 + Height + 3]| == totalWidth
      && lines[2] == LegendLine(totalWidth, names)
  {
    var width := 3 * |timestamps|;
    var totalWidth := width + 30;
    var header := HeaderLines(totalWidth, names);
    var grid := GridLines(plots, lo, hi, width, fmt);
    var footer := FooterLines(totalWidth, width, timestamps);
    var lines := header + grid + footer;
    assert ChartLines(names, plots, timestamps, lo, hi, fmt) == lines;
    FrameWidths(totalWidth);
    GridLinesWidth(plots, lo, hi, width, fmt);
    FooterWidths(timestamps);
    assert forall i :: 4 <= i < 4 + Height + 1 ==> lines[i] == grid[i - 4];
    assert lines[4 + Height + 1] == footer[0] && lines[4 + Height + 2] == footer[1] && lines[4 + Height + 3] == footer[2];
  }

  /**
   * The shape of a chart over n timestamps, with total width 3n + 30: 4 header lines,
   * Height + 1 labelled rows and 3 footer lines. Borders, title, blank line and rows are
   * the total width; the X-axis line is one wider; the time line is at least as wide, and
   * wider as soon as n > 4; the legend line is short by the colour codes of its entries.
   */
  lemma ChartShape(data: seq<Scaler.Series>, timestamps: seq<string>, fmt: real -> string)
    requires WellFormedInput(data, timestamps)
    requires Chart(data, timestamps, fmt).Success?
    requires Scaler.Flatten(data) != []
    requires LabelsFit(fmt, Scaler.PaddedRange(Scaler.Flatten(data)).0, Scaler.PaddedRange(Scaler.Flatten(data)).1)
    ensures var lines := Chart(data, timestamps, fmt).value;
      var n := |timestamps|;
      var totalWidth := 3 * n + 30;
      && |lines| == 4 + (Height + 1) + 3
      && |lines[0]| == totalWidth && |lines[1]| == totalWidth && |lines[3]| == totalWidth
      && (forall i :: 4 <= i < 4 + Height + 1 ==> |lines[i]| == totalWidth)
      && |lines[4 + Height + 1]| == totalWidth + 1
      && |lines[4 + Height + 2]| == Max(totalWidth, 7 * n + 11)
      && |lines[4 + Height + 3]| == totalWidth
      && |lines[2]| == Max(totalWidth - ColourCodeLength * |data|, |Legend(Names(data))| + 11)
  {
    ChartOutcome(data, timestamps, fmt);
    ChartValue(data, timestamps, fmt);
    var (lo, hi) := Scaler.PaddedRange(Scaler.Flatten(data));
    ChartLinesShape(Names(data), Normalized(data, lo, hi), timestamps, lo, hi, fmt);
    LegendLineWidth(3 * |timestamps| + 30, Names(data));
  }

  /** The third line of the chart is the legend line of the names. */
  lemma ChartLinesLegend(names: seq<string>, plots: seq<Plot>, timestamps: seq<string>, lo: real, hi: real,
                         fmt: real -> string)
    requires forall t :: 0 <= t < |timestamps| ==> WellFormedTimestamp(timestamps[t])
    ensures |ChartLines(names, plots, timestamps, lo, hi, fmt)| == 4 + (Height + 1) + 3
    ensures ChartLines(names, plots, timestamps, lo, hi, fmt)[2] == LegendLine(3 * |timestamps| + 30, names)
  {
    var width := 3 * |timestamps|;
    var header := HeaderLines(width + 30, names);
    var top := header + GridLines(plots, lo, hi, width, fmt);
    assert ChartLines(names, plots, timestamps, lo, hi, fmt) == top + FooterLines(width + 30, width, timestamps);
    assert top[2] == header[2];
  }

  /** In a chart that succeeds every series has a glyph, and the legend's lookup is that glyph. */
  lemma ChartGlyphs(data: seq<Scaler.Series>, timestamps: seq<string>, fmt: real -> string)
    requires WellFormedInput(data, timestamps)
    requires Chart(data, timestamps, fmt).Success?
    ensures forall k :: 0 <= k < |data| ==> Glyph(data[k].0) == Some(GlyphOf(data[k].0))
  {
    ChartOutcome(data, timestamps, fmt);
  }

  /**
   * The legend line of a chart shows, after `│ Legend: `, one entry per series in the
   * dictionary's order: the series' glyph, a space and the capitalized name.
   */
  lemma ChartLegend(data: seq<Scaler.Series>, timestamps: seq<string>, fmt: real -> string, lines: seq<string>)
    requires WellFormedInput(data, timestamps)
    requires Chart(data, timestamps, fmt) == Success(lines)
    ensures |lines| > 2 && |lines[2]| >= 10 + |Legend(Names(data))|
    ensures lines[2][..10] == Bar + " Legend: "
    ensures lines[2][10..10 + |Legend(Names(data))|] == Legend(Names(data))
  {
    ChartValue(data, timestamps, fmt);
    var (lo, hi) := Scaler.PaddedRange(Scaler.Flatten(data));
    ChartLinesLegend(Names(data), Normalized(data, lo, hi), timestamps, lo, hi, fmt);
    LegendLineWidth(3 * |timestamps| + 30, Names(data));
  }

  // ---- The imperative computation ----

  /** The loop collecting each timestamp's `HH:MM`. */
  method TimeMarkers(timestamps: seq<string>) returns (markers: seq<string>)
    requires forall t :: 0 <= t < |timestamps| ==> WellFormedTimestamp(timestamps[t])
    ensures markers == Markers(timestamps)
  {
    markers := [];
    for t := 0 to |timestamps|
      invariant markers == Markers(timestamps[..t])
    {
      markers := markers + [HourMinute(timestamps[t])];
    }
    assert timestamps[..|timestamps|] == timestamps;
  }

  /** `''.join(row)` for canvas row y. */
  method ReadRow(c: array2<char>, plots: seq<Plot>, y: int, width: nat) returns (row: string)
    requires c.Length0 == Height + 2 && c.Length1 == width + 2 && 0 <= y < c.Length0
    requires forall y', x :: 0 <= y' < c.Length0 && 0 <= x < c.Length1 ==>
      c[y', x] == CellAfterPlots(GridCell(y', x), plots, y', x)
    ensures row == CanvasRow(plots, y, width)
  {
    row := seq(c.Length1, x requires 0 <= x < c.Length1 reads c => c[y, x]);
  }

  /** The loop over the canvas rows: appends each labelled row to `lines`, skipping the last canvas row. */
  method AppendGridRows(c: array2<char>, plots: seq<Plot>, lo: real, hi: real, width: nat, fmt: real -> string,
                        before: seq<string>) returns (lines: seq<string>)
    requires c.Length0 == Height + 2 && c.Length1 == width + 2
    requires forall y, x :: 0 <= y < c.Length0 && 0 <= x < c.Length1 ==>
      c[y, x] == CellAfterPlots(GridCell(y, x), plots, y, x)
    ensures lines == before + GridLines(plots, lo, hi, width, fmt)
  {
    var totalWidth := width + 30;
    lines := before;
    var priceStep := (hi - lo) / (Height - 1) as real;
    ghost var grid := GridLines(plots, lo, hi, width, fmt);
    for i := 0 to c.Length0
      invariant lines == before + grid[..if i <= Height + 1 then i else Height + 1]
    {
      if i != Height + 1 {
        var currentPrice := hi - (i as real) * priceStep;
        var row := ReadRow(c, plots, i, width);
        assert currentPrice == RowPrice(lo, hi, i);
        assert grid[i] == RowLine(totalWidth, fmt(currentPrice), row);
        assert grid[..i + 1] == grid[..i] + [grid[i]];
        lines := lines + [RowLine(totalWidth, fmt(currentPrice), row)];
      }
    }
    assert grid[..Height + 1] == grid;
  }

  /**
   * The line assembly: header lines, then every canvas row except the last with its price
   * label, then the footer.
   */
  method AssembleLines(c: array2<char>, names: seq<string>, plots: seq<Plot>, timestamps: seq<string>,
                       lo: real, hi: real, fmt: real -> string) returns (lines: seq<string>)
    requires forall t :: 0 <= t < |timestamps| ==> WellFormedTimestamp(timestamps[t])
    requires c.Length0 == Height + 2 && c.Length1 == 3 * |timestamps| + 2
    requires forall y, x :: 0 <= y < c.Length0 && 0 <= x < c.Length1 ==>
      c[y, x] == CellAfterPlots(GridCell(y, x), plots, y, x)
    ensures lines == ChartLines(names, plots, timestamps, lo, hi, fmt)
  {
    var width := |timestamps| * 3;
    var totalWidth := width + 30;
    lines := HeaderLines(totalWidth, names);
    lines := AppendGridRows(c, plots, lo, hi, width, fmt, lines);
    lines := lines + [AxisLine(totalWidth, width)];
    var markers := TimeMarkers(timestamps);
    var timeStr := TimeText(markers);
    lines := lines + [TimeLine(totalWidth, timeStr), BottomBorder(totalWidth)];
  }

  /**
   * The canvas passes: a blank canvas, vertical then horizontal gridlines, then the series.
   * Without a missing glyph every cell is the background overwritten by the plotted series.
   */
  method DrawCanvas(width: nat, plots: seq<Plot>) returns (c: array2<char>, missing: Option<string>)
    requires forall k :: 0 <= k < |plots| ==> 3 * |plots[k].1| <= width + 3
    requires forall k, i :: 0 <= k < |plots| && 0 <= i < |plots[k].1| ==> 0 <= plots[k].1[i] < Height
    ensures fresh(c) && c.Length0 == Height + 2 && c.Length1 == width + 2
    ensures missing == FirstUnknown(plots)
    ensures missing == None ==> forall y, x :: 0 <= y < c.Length0 && 0 <= x < c.Length1 ==>
      c[y, x] == CellAfterPlots(GridCell(y, x), plots, y, x)
  {
    c := NewCanvas(width);
    DrawVerticalGridlines(c);
    DrawHorizontalGridlines(c);
    missing := PlotAll(c, plots);
    if missing == None {
      forall y, x | 0 <= y < c.Length0 && 0 <= x < c.Length1
        ensures c[y, x] == CellAfterPlots(GridCell(y, x), plots, y, x)
      {
        GridlinePasses(y, x);
      }
    }
  }

  /** The price range of all points, widened by a tenth of its span on either side. */
  method PaddedBounds(all: seq<real>) returns (lo: real, hi: real)
    requires all != []
    ensures (lo, hi) == Scaler.PaddedRange(all)
  {
    var maxPrice := Scaler.MaxOf(all);
    var minPrice := Scaler.MinOf(all);
    var priceRange := maxPrice - minPrice;
    var padding := priceRange * 0.1;
    hi := maxPrice + padding;
    lo := minPrice - padding;
  }

  /** The scaling steps: the padded price range of all points, then every series normalized against it. */
  method ScaleSeries(data: seq<Scaler.Series>, all: seq<real>) returns (lo: real, hi: real, normalized: seq<Plot>)
    requires all == Scaler.Flatten(data) && all != []
    ensures (lo, hi) == Scaler.PaddedRange(all)
    ensures normalized == Normalized(data, lo, hi)
    ensures forall k, i :: 0 <= k < |normalized| && 0 <= i < |normalized[k].1| ==> 0 <= normalized[k].1[i] < Height
  {
    lo, hi := PaddedBounds(all);
    normalized := Scaler.NormalizeAll(data, lo, hi, Height);
    assert normalized == Normalized(data, lo, hi);
    PlotsInRange(data);
  }

  /** Builds the chart on a mutable canvas, pass by pass, as the source does. */
  method GenerateGraph(data: seq<Scaler.Series>, timestamps: seq<string>, fmt: real -> string)
    returns (r: Result<seq<string>, ChartError>)
    requires WellFormedInput(data, timestamps)
    ensures r == Chart(data, timestamps, fmt)
  {
    var width := |timestamps| * 3;
    var all := Scaler.CollectPoints(data);
    if all == [] {
      return Failure(NoData);
    }
    var minPrice, maxPrice, normalized := ScaleSeries(data, all);
    var c, missing := DrawCanvas(width, normalized);
    if missing.Some? {
      return Failure(UnknownSeries(missing.value));
    }
    var lines := AssembleLines(c, Names(data), normalized, timestamps, minPrice, maxPrice, fmt);
    r := Success(lines);
  }
}
