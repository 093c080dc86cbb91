/**
 * Line layout: the decorative borders, the lines of the chart around the canvas,
 * and the summary box. All widths are counted in code points. Colour escape codes
 * are not emitted, but where the source measures a string that contains them their
 * length enters the padding arithmetic, as it does there.
 */
module Layout {
  import opened Wrappers
  import opened Text
  import Canvas

  const Rule := '\U{2500}'
  const Bar := "\U{2502}"

  /**
   * len(Fore.YELLOW) + len(Style.RESET_ALL), and equally len(Fore.GREEN) or len(Fore.RED)
   * plus len(Style.RESET_ALL): the escape characters inside each coloured span.
   */
  const ColourCodeLength := 9

  /** `╭` + `─` * (width - 2) + `╮`. */
  function TopBorder(width: int): string
  {
    "\U{256D}" + Repeat(Rule, width - 2) + "\U{256E}"
  }

  /** `╰` + `─` * (width - 2) + `╯`. */
  function BottomBorder(width: int): string
  {
    "\U{2570}" + Repeat(Rule, width - 2) + "\U{256F}"
  }

  /** `create_border`: top border, a centred title line framed by `✧` (None for an empty title), bottom border. */
  function CreateBorder(width: int, title: string): (r: (string, Option<string>, string))
    ensures r.1.Some? <==> title != ""
  {
    var titleLine :=
      if title != "" then
        var padding := (width - |title| - 4) / 2;
        Some(Bar + Spaces(padding) + "\U{2727} " + title + " \U{2727}" + Spaces(width - padding - |title| - 5) + Bar)
      else None;
    (TopBorder(width), titleLine, BottomBorder(width))
  }

  /**
   * The borders are `width` wide. The title line is one wider: its right padding is the
   * left padding or one less, and the six framing characters take one column more than
   * the arithmetic reserves.
   */
  lemma CreateBorderWidths(width: int, title: string)
    requires width >= 2
    ensures |CreateBorder(width, title).0| == width && |CreateBorder(width, title).2| == width
    ensures title != "" && width >= |title| + 5 ==>
      var padding := (width - |title| - 4) / 2;
      var right := width - padding - |title| - 5;
      && |CreateBorder(width, title).1.value| == width + 1
      && padding >= 0 && (right == padding || right == padding - 1)
      && CreateBorder(width, title).1.value[1 + padding..3 + padding + |title| + 2] == "\U{2727} " + title + " \U{2727}"
  {
    if title != "" && width >= |title| + 5 {
      var padding := (width - |title| - 4) / 2;
      var line := CreateBorder(width, title).1.value;
      var framed := "\U{2727} " + title + " \U{2727}";
      assert line == Bar + Spaces(padding) + framed + Spaces(width - padding - |title| - 5) + Bar;
      assert line[1 + padding..1 + padding + |framed|] == framed;
    }
  }

  // ---- The lines of the chart (generate_multi_series_ascii_graph) ----

  const ChartTitle := "\U{2727} Price Chart \U{2727}"

  /** The centred title line. */
  function TitleLine(totalWidth: int): string
  {
    var padding := (totalWidth - |ChartTitle| - 2) / 2;
    Bar + Spaces(padding) + ChartTitle + Spaces(totalWidth - padding - |ChartTitle| - 2) + Bar
  }

  /** One legend entry: the series' glyph, a space and its capitalized name. */
  function LegendEntry(name: string): string
  {
    [Canvas.GlyphOf(name)] + " " + Capitalize(name)
  }

  /** The legend: the entries joined by single spaces, in the order of the names. */
  function Legend(names: seq<string>): string
  {
    Join(" ", seq(|names|, k requires 0 <= k < |names| => LegendEntry(names[k])))
  }

  /**
   * The legend line. Its padding subtracts the source's len(legend), which also counts the
   * colour codes around each glyph.
   */
  function LegendLine(totalWidth: int, names: seq<string>): string
  {
    var legend := Legend(names);
    var measured := |legend| + ColourCodeLength * |names|;
    Bar + " Legend: " + legend + Spaces(totalWidth - |" Legend: "| - measured - 2) + Bar
  }

  /** The blank line under the legend. */
  function BlankLine(totalWidth: int): string
  {
    Bar + Spaces(totalWidth - 2) + Bar
  }

  /** One canvas row behind its price label; `priceText` is the 8.2f text of the row's price. */
  function RowLine(totalWidth: int, priceText: string, row: string): string
  {
    var priceStr := priceText + " ";
    Bar + " " + priceStr + row + Spaces(totalWidth - |priceStr| - |row| - 3) + Bar
  }

  /** The X-axis line under the grid. */
  function AxisLine(totalWidth: int, width: int): string
  {
    Bar + " " + Repeat(Rule, 8) + "\U{256E}" + Repeat(Rule, width) + Spaces(totalWidth - width - 11) + Bar
  }

  /** The time axis text: ten spaces, then the markers joined by two spaces. */
  function TimeText(markers: seq<string>): string
  {
    Spaces(10) + Join("  ", markers)
  }

  /** The time axis line. */
  function TimeLine(totalWidth: int, timeStr: string): string
  {
    Bar + " " + timeStr + Spaces(totalWidth - |timeStr| - 3) + Bar
  }

  predicate IsDigit(c: char) { '0' <= c <= '9' }

  /** A timestamp of the shape `YYYY-MM-DD HH:MM:SS`. */
  predicate WellFormedTimestamp(ts: string)
  {
    && |ts| == 19
    && (forall i :: 0 <= i < 19 && i !in {4, 7, 10, 13, 16} ==> IsDigit(ts[i]))
    && ts[4] == '-' && ts[7] == '-' && ts[10] == ' ' && ts[13] == ':' && ts[16] == ':'
  }

  /** `strftime('%H:%M')` of a parsed timestamp: characters 11 to 15. */
  function HourMinute(ts: string): (r: string)
    requires WellFormedTimestamp(ts)
    ensures |r| == 5 && r[2] == ':' && IsDigit(r[0]) && IsDigit(r[1]) && IsDigit(r[3]) && IsDigit(r[4])
    ensures r[..2] == ts[11..13] && r[3..] == ts[14..16]
  {
    ts[11..16]
  }

  /** Top border, title and blank lines are the full width. */
  lemma FrameWidths(totalWidth: int)
    requires totalWidth >= |ChartTitle| + 2
    ensures |TopBorder(totalWidth)| == totalWidth && |BottomBorder(totalWidth)| == totalWidth
    ensures |TitleLine(totalWidth)| == totalWidth
    ensures |BlankLine(totalWidth)| == totalWidth
  {
    var padding := (totalWidth - |ChartTitle| - 2) / 2;
    assert 0 <= padding <= totalWidth - |ChartTitle| - 2;
  }

  /** A row line is the full width whenever its priceText has at most 24 characters. */
  lemma RowLineWidth(width: int, priceText: string, row: string)
    requires width >= 0 && |row| == width + 2 && |priceText| <= 24
    ensures |RowLine(width + 30, priceText, row)| == width + 30
    ensures RowLine(width + 30, priceText, row)[2..2 + |priceText|] == priceText
    ensures RowLine(width + 30, priceText, row)[3 + |priceText|..5 + |priceText| + width] == row
  {
    var line := RowLine(width + 30, priceText, row);
    assert line == Bar + " " + priceText + " " + row + Spaces(24 - |priceText|) + Bar;
  }

  /** The X-axis line is one column wider than the other lines. */
  lemma AxisLineWidth(width: int)
    requires width >= 0
    ensures |AxisLine(width + 30, width)| == width + 31
  {
  }

  /** The time line is the full width, or wider when the time text does not fit. */
  lemma TimeLineWidth(totalWidth: int, timeStr: string)
    ensures |TimeLine(totalWidth, timeStr)| == Max(totalWidth, |timeStr| + 3)
  {
  }

  /** With n >= 1 markers of five characters, the time text has 7n + 8 characters. */
  lemma TimeTextLength(markers: seq<string>)
    requires |markers| >= 1
    requires forall i :: 0 <= i < |markers| ==> |markers[i]| == 5
    ensures |TimeText(markers)| == 7 * |markers| + 8
  {
    JoinLength("  ", markers);
    TotalLengthUniform(markers, 5);
  }

  /** The legend has, for n names, the names' lengths plus 2 per entry plus n - 1 separators. */
  lemma {:induction false} LegendLength(names: seq<string>)
    requires |names| >= 1
    ensures |Legend(names)| == TotalLength(names) + 3 * |names| - 1
  {
    var entries := seq(|names|, k requires 0 <= k < |names| => LegendEntry(names[k]));
    JoinLength(" ", entries);
    EntriesLength(names, entries);
  }

  lemma {:induction false} EntriesLength(names: seq<string>, entries: seq<string>)
    requires |entries| == |names|
    requires forall k :: 0 <= k < |names| ==> entries[k] == LegendEntry(names[k])
    ensures TotalLength(entries) == TotalLength(names) + 2 * |names|
    decreases |names|
  {
    if names != [] {
      EntriesLength(names[1..], entries[1..]);
    }
  }

  /**
   * The legend line: its text is the legend, and it is as wide as the frame less the colour
   * codes the padding allowed for, unless the legend is too long for any padding.
   */
  lemma LegendLineWidth(totalWidth: int, names: seq<string>)
    ensures |LegendLine(totalWidth, names)| ==
      Max(totalWidth - ColourCodeLength * |names|, |Legend(names)| + 11)
    ensures LegendLine(totalWidth, names)[..10] == Bar + " Legend: "
    ensures LegendLine(totalWidth, names)[10..10 + |Legend(names)|] == Legend(names)
  {
    var legend := Legend(names);
    var pad := Spaces(totalWidth - |" Legend: "| - (|legend| + ColourCodeLength * |names|) - 2);
    assert LegendLine(totalWidth, names) == (Bar + " Legend: ") + legend + (pad + Bar);
  }

  // ---- The summary box (format_summary_box) ----

  const SummaryWidth := 50

  /** The boxed title: `✦ SYMBOL ✦`. */
  function SummaryTitle(symbol: string): string
  {
    "\U{2726} " + Upper(symbol) + " \U{2726}"
  }

  /** A line `│` + text + padding to the box width + `│`, padding computed from `measured`. */
  function BoxLine(text: string, measured: int): string
  {
    Bar + text + Spaces(SummaryWidth - measured - 1) + Bar
  }

  /** The change arrow: up for a change of at least zero, down otherwise. */
  function ChangeSymbol(change: real): string
  {
    if change >= 0.0 then "\U{1F845}" else "\U{1F847}"
  }

  /** The change line's text; `absText` and `pctText` are the 2-decimal texts of |change| and of the percentage. */
  function ChangeText(change: real, absText: string, pctText: string): string
  {
    " " + ChangeSymbol(change) + " Change: " + absText + " (" + pctText + "%)"
  }

  /**
   * `format_summary_box`; every price is given as its `format_price` text. The change
   * line's padding counts the colour codes around the amounts, as the source's len() does.
   */
  function SummaryBox(symbol: string, latest: string, openText: string, highText: string,
                      lowText: string, closeText: string, change: real, absText: string,
                      pctText: string): (lines: seq<string>)
    ensures |lines| == 9
  {
    var (top, title, bottom) := CreateBorder(SummaryWidth, SummaryTitle(symbol));
    var latestText := " \U{231A} Latest Update: " + latest;
    var changeText := ChangeText(change, absText, pctText);
    [ top,
      title.value,
      BoxLine(latestText, |latestText|),
      BoxLine(" \U{25B2} Open:  " + openText, |" \U{25B2} Open:  "| + |openText|),
      BoxLine(" \U{2B06} High:  " + highText, |" \U{2B06} High:  "| + |highText|),
      BoxLine(" \U{2B07} Low:   " + lowText, |" \U{2B07} Low:   "| + |lowText|),
      BoxLine(" \U{25C6} Close: " + closeText, |" \U{25C6} Close: "| + |closeText|),
      BoxLine(changeText, |changeText| + ColourCodeLength),
      bottom ]
  }

  /**
   * A box line shows its text right after the bar; it is the text, the two bars and the
   * padding wide, so 51 when its padding was measured on its own text and that fits in 49.
   */
  lemma BoxLineWidth(text: string, measured: int)
    ensures |BoxLine(text, measured)| == |text| + 2 + Max(0, SummaryWidth - measured - 1)
    ensures BoxLine(text, measured)[..1] == Bar && BoxLine(text, measured)[1..1 + |text|] == text
  {
  }

  /**
   * The summary box: 9 lines; the borders are 50 wide; the title, timestamp and price lines
   * are 51 wide when their texts fit; the change line, padded as if its colour codes were
   * visible, is 42 wide when its text fits, and shows the arrow for the sign of the change.
   */
  lemma SummaryBoxWidths(symbol: string, latest: string, openText: string, highText: string,
                         lowText: string, closeText: string, change: real, absText: string,
                         pctText: string)
    ensures var lines := SummaryBox(symbol, latest, openText, highText, lowText, closeText, change, absText, pctText);
      && |lines[0]| == SummaryWidth && |lines[8]| == SummaryWidth
      && (|symbol| <= 41 ==> |lines[1]| == SummaryWidth + 1)
      && (|latest| <= 31 ==> |lines[2]| == SummaryWidth + 1)
      && (|openText| <= 39 ==> |lines[3]| == SummaryWidth + 1)
      && (|highText| <= 39 ==> |lines[4]| == SummaryWidth + 1)
      && (|lowText| <= 39 ==> |lines[5]| == SummaryWidth + 1)
      && (|closeText| <= 39 ==> |lines[6]| == SummaryWidth + 1)
      && (|absText| + |pctText| <= 25 ==> |lines[7]| == SummaryWidth - 8)
      && lines[7][2..3] == ChangeSymbol(change)
  {
    var lines := SummaryBox(symbol, latest, openText, highText, lowText, closeText, change, absText, pctText);
    CreateBorderWidths(SummaryWidth, SummaryTitle(symbol));
    var changeText := ChangeText(change, absText, pctText);
    assert lines[7] == BoxLine(changeText, |changeText| + ColourCodeLength);
    assert |changeText| == 15 + |absText| + |pctText|;
  }

  /** The summary box's frame: the rounded borders, and the framed upper-case symbol after the centring padding. */
  lemma SummaryBoxFrame(symbol: string, latest: string, openText: string, highText: string,
                        lowText: string, closeText: string, change: real, absText: string,
                        pctText: string)
    requires |symbol| <= 41
    ensures var lines := SummaryBox(symbol, latest, openText, highText, lowText, closeText, change, absText, pctText);
      var framed := "\U{2727} " + SummaryTitle(symbol) + " \U{2727}";
      && lines[0] == TopBorder(SummaryWidth) && lines[8] == BottomBorder(SummaryWidth)
      && lines[1][1 + (42 - |symbol|) / 2..1 + (42 - |symbol|) / 2 + |framed|] == framed
  {
    var lines := SummaryBox(symbol, latest, openText, highText, lowText, closeText, change, absText, pctText);
    var title := SummaryTitle(symbol);
    var border := CreateBorder(SummaryWidth, title);
    assert lines[0] == border.0 && lines[1] == border.1.value && lines[8] == border.2;
    assert |title| == |symbol| + 4;
    CreateBorderWidths(SummaryWidth, title);
  }

  /** After the left bar, the summary box shows the timestamp, the four prices and the change. */
  lemma SummaryBoxTexts(symbol: string, latest: string, openText: string, highText: string,
                        lowText: string, closeText: string, change: real, absText: string,
                        pctText: string)
    ensures var lines := SummaryBox(symbol, latest, openText, highText, lowText, closeText, change, absText, pctText);
      && lines[2][1..19 + |latest|] == " \U{231A} Latest Update: " + latest
      && lines[3][1..11 + |openText|] == " \U{25B2} Open:  " + openText
      && lines[4][1..11 + |highText|] == " \U{2B06} High:  " + highText
      && lines[5][1..11 + |lowText|] == " \U{2B07} Low:   " + lowText
      && lines[6][1..11 + |closeText|] == " \U{25C6} Close: " + closeText
      && lines[7][1..16 + |absText| + |pctText|] == ChangeText(change, absText, pctText)
  {
    var lines := SummaryBox(symbol, latest, openText, highText, lowText, closeText, change, absText, pctText);
    var latestText := " \U{231A} Latest Update: " + latest;
    var openLine := " \U{25B2} Open:  " + openText;
    var highLine := " \U{2B06} High:  " + highText;
    var lowLine := " \U{2B07} Low:   " + lowText;
    var closeLine := " \U{25C6} Close: " + closeText;
    var changeText := ChangeText(change, absText, pctText);
    assert lines[2] == BoxLine(latestText, |latestText|);
    assert lines[3] == BoxLine(openLine, |" \U{25B2} Open:  "| + |openText|);
    assert lines[4] == BoxLine(highLine, |" \U{2B06} High:  "| + |highText|);
    assert lines[5] == BoxLine(lowLine, |" \U{2B07} Low:   "| + |lowText|);
    assert lines[6] == BoxLine(closeLine, |" \U{25C6} Close: "| + |closeText|);
    assert lines[7] == BoxLine(changeText, |changeText| + ColourCodeLength);
    BoxLineWidth(latestText, |latestText|);
    BoxLineWidth(openLine, |" \U{25B2} Open:  "| + |openText|);
    BoxLineWidth(highLine, |" \U{2B06} High:  "| + |highText|);
    BoxLineWidth(lowLine, |" \U{2B07} Low:   "| + |lowText|);
    BoxLineWidth(closeLine, |" \U{25C6} Close: "| + |closeText|);
    BoxLineWidth(changeText, |changeText| + ColourCodeLength);
  }
}
