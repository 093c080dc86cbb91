# Price chart rendering of stock-cli

`stock-cli.py` is a terminal tool that draws intraday stock prices as a text
chart. This project models its rendering core:

- `normalize_prices` maps a price range onto the rows of the chart;
- `generate_multi_series_ascii_graph` builds the chart in steps:
  - it collects the points of every series and pads their range by a tenth on each side;
  - it normalizes every series against that range;
  - it fills a 22-row character canvas with gridlines and plots each series' glyph on the canvas;
  - it surrounds the canvas rows with the title, legend, price labels, X axis, `HH:MM` time line and borders;
- `create_border` builds the rounded frame and the centred `✧ title ✧` line;
- `format_summary_box` builds the nine lines of the quote summary.

Modules:

- `Wrappers`: `Option` and `Result`.
- `Text`: repetition, joining and ASCII case mapping of strings.
- `Scaler`: truncation, `normalize_prices`, the collection of points, max/min and the padded range.
- `Canvas`: the glyph table, the two gridline passes and the plotting of series on an `array2<char>`.
- `Layout`: borders, each kind of chart line, timestamps and the summary box.
- `Chart`:
  - `Chart` is the specification function of the whole chart. It returns `Success(lines)` or one of
    the two failures the source raises. `NoData` stands for `max()` of an empty list.
    `UnknownSeries(name)` stands for the `KeyError` on a series name without a glyph.
  - `GenerateGraph` computes the chart pass by pass on a mutable canvas, as the source does.
    It is proved equal to `Chart`.

Prices are modelled as `real`, so `0.1` is exact. Python's `int()` on a float is modelled as
truncation toward zero (`Scaler.Trunc`). Lengths are counted in code points, as Python's `len()` does.
Colour escape codes are not emitted. Two strings that the source measures with `len()`
contain them: the legend, and the summary's change line. Each coloured span there counts 9
characters. The model keeps that count in the padding arithmetic (`Layout.ColourCodeLength`).

Properties of the code that the model states as proved facts:

- Rows are computed by `int()`, i.e. truncation toward zero (stock-cli.py:27).
- The chart's lines are not all the same width:
  - the X-axis line is one column wider than the frame, since its padding subtracts 11 for 12 fixed characters (stock-cli.py:116);
  - the time line has `max(3n + 30, 7n + 11)` columns for `n` timestamps, so it is wider than the frame once `n > 4` (stock-cli.py:124-125);
  - the legend line has `max(3n + 30 - 9k, |legend| + 11)` columns for `k` series, because its padding subtracts the colour codes counted by `len(legend)`: it is 9 columns per series narrower than the frame once the legend fits (for the four price series, from `n = 15` timestamps on), and `|legend| + 11` wide before that (stock-cli.py:100-102).
- The `create_border` title line is one column wider than its borders: its padding reserves five columns for the six framing characters (stock-cli.py:16-17).
- The summary's change line pads as if its colour codes were visible, so it is 42 columns wide when its amount texts fit (stock-cli.py:155-156).

## Model

| member | source | states |
|---|---|---|
| Scaler.Trunc | stock-cli.py:27 | `int()`: the result is the integer between zero and x nearest x (floor for x ≥ 0, ceiling below) |
| Scaler.TruncMonotone | stock-cli.py:27 | truncation never reverses the order of two values |
| Scaler.NormalizePrices | stock-cli.py:23-27 | one row per price; all rows 0 when max == min; otherwise row i is `int((p - min) / (max - min) * (height - 1))` |
| Scaler.RowBounds | stock-cli.py:27 | a price inside a non-degenerate range lands on a row between 0 and height - 1 |
| Scaler.RowEnds | stock-cli.py:27 | the minimum maps to row 0 and the maximum to row height - 1 |
| Scaler.RowMonotone | stock-cli.py:27 | a higher price never lands on a lower row |
| Scaler.ScaledMonotone | stock-cli.py:27 | `int(x / d * h)` is monotone in x for d > 0 and h ≥ 0 |
| Scaler.NormalizeInRange | stock-cli.py:23-27 | prices inside [min, max] (degenerate range included) all normalize into [0, height) |
| Scaler.NormalizeMonotone | stock-cli.py:23-27 | normalization preserves the order of any two prices of a series |
| Scaler.FlattenMembers | stock-cli.py:40-42 | a value is among the collected points exactly when it is a point of some series |
| Scaler.FlattenLength | stock-cli.py:40-42 | with every series of length n, n points are collected per series |
| Scaler.CollectPoints | stock-cli.py:40-42 | the `extend` loop collects every series' points in order (equal to `Flatten`) |
| Scaler.MaxOf | stock-cli.py:43 | `max`: an element of the list that no element exceeds |
| Scaler.MinOf | stock-cli.py:44 | `min`: an element of the list that exceeds no element |
| Scaler.PaddedRangeBounds | stock-cli.py:46-50 | the padded bounds are min - (max - min)/10 and max + (max - min)/10 |
| Scaler.PaddedRangeContains | stock-cli.py:46-50 | every collected point lies inside the padded range |
| Scaler.PaddedRangeDegenerate | stock-cli.py:46-50 | the padded bounds coincide exactly when all points are equal |
| Scaler.NormalizeAll | stock-cli.py:52-55 | the loop normalizes every series against the shared range, keeping names and order |
| Canvas.GlyphsDistinct | stock-cli.py:58-63 | the four series glyphs are pairwise distinct and differ from blank and both gridline glyphs |
| Canvas.NewCanvas | stock-cli.py:66 | a fresh (HEIGHT + 2) × (WIDTH + 2) canvas of spaces |
| Canvas.DrawVerticalGridlines | stock-cli.py:68-72 | every cell in a column divisible by 3 and a row ≤ HEIGHT becomes `⋮` if it was blank; nothing else changes |
| Canvas.DrawHorizontalGridlines | stock-cli.py:74-79 | every cell in a row ≤ HEIGHT divisible by 4 becomes `⋅` if it was blank; nothing else changes |
| Canvas.GridlinePasses | stock-cli.py:66-79 | both passes over a blank cell give the background: `⋮` at every crossing, `⋅` elsewhere on the horizontal rows, blank below row HEIGHT and off the rules |
| Canvas.PointColumn | stock-cli.py:84-87 | point i is plotted in column 3i + 1, never a gridline column |
| Canvas.PlotSeries | stock-cli.py:84-87 | one series' glyph is written at row HEIGHT - 1 - value, column 3i + 1, for each point i; every other cell is unchanged |
| Canvas.PlotAll | stock-cli.py:81-87 | stops at the first name without a glyph (the KeyError); otherwise every cell shows the glyph of the last series that writes it, or its previous contents |
| Canvas.LastWriterWins | stock-cli.py:81-87 | a cell shows the glyph of the last series that writes it |
| Canvas.UnwrittenCellKept | stock-cli.py:81-87 | a cell no series writes keeps its background |
| Canvas.FirstUnknownNone | stock-cli.py:83 | no KeyError exactly when every series name has a glyph |
| Canvas.FirstUnknownSome | stock-cli.py:83 | the failing name is a series name without a glyph, and every earlier name has one |
| Canvas.FirstUnknownAppend | stock-cli.py:82-83 | after a run of known names, the next series decides whether the lookup fails |
| Canvas.FirstUnknownPrefix | stock-cli.py:82-83 | the loop's first failing lookup is the first unknown name of all series |
| Canvas.FirstUnknownSameNames | stock-cli.py:82-83 | the failing lookup depends only on the names: the normalized series fail on the same name as the raw ones |
| Text.Upper | stock-cli.py:138 | `upper()` keeps the length, leaves no lower-case letter and keeps every character that is not a lower-case letter |
| Text.UpperSameLetters | stock-cli.py:138 | `upper()` keeps every letter: result and input agree once both are lower-cased |
| Text.Capitalize | stock-cli.py:100 | `capitalize()` keeps the length, leaves the first character not lower case and the others not upper case |
| Text.CapitalizeSameLetters | stock-cli.py:100 | `capitalize()` keeps every letter: only the case of each character changes |
| Text.JoinLength | stock-cli.py:100-101 | a join has the parts' total length plus one separator between each two parts |
| Layout.CreateBorder | stock-cli.py:12-21 | there is a title line exactly when the title is non-empty |
| Layout.CreateBorderWidths | stock-cli.py:12-21 | borders are `width` wide; a title line is `width + 1` wide, its right padding is the left padding or one less, and it shows `✧ title ✧` after the left padding |
| Layout.FrameWidths | stock-cli.py:93-97 | top border, bottom border, title line and blank line are the total width |
| Layout.LegendLength | stock-cli.py:100-101 | the legend is the names' lengths plus 3 per entry less one |
| Layout.LegendLineWidth | stock-cli.py:99-102 | the legend line shows the legend at column 10 and is max(total - 9 per series, legend + 11) wide |
| Layout.RowLineWidth | stock-cli.py:110-113 | a row line is the total width when the price text has at most 24 characters, and shows the price text, then the canvas row |
| Layout.AxisLineWidth | stock-cli.py:116 | the X-axis line is one column wider than the total width |
| Layout.HourMinute | stock-cli.py:121-122 | `%H:%M` of a well-formed timestamp is its hour and minute digits around a colon |
| Layout.TimeTextLength | stock-cli.py:124 | n ≥ 1 markers make a time text of 7n + 8 characters |
| Layout.TimeLineWidth | stock-cli.py:125 | the time line is the total width, or wider when the time text does not fit |
| Layout.SummaryBox | stock-cli.py:132-160 | the summary has nine lines |
| Layout.BoxLineWidth | stock-cli.py:144-156 | a box line shows its text right after the bar and is the text, two bars and the padding computed from the measured length (never negative) wide |
| Layout.SummaryBoxWidths | stock-cli.py:132-160 | borders are 50 wide; title, timestamp and price lines are 51 when their texts fit; the change line is 42 when it fits and shows the arrow for the sign of the change |
| Layout.SummaryBoxFrame | stock-cli.py:135-141 | the box has the 50-wide rounded borders and shows `✧ ✦ SYMBOL ✦ ✧` after the centring padding |
| Layout.SummaryBoxTexts | stock-cli.py:143-156 | after the left bar the lines show the latest-update timestamp, the open, high, low and close prices, and the change with its arrow and percentage |
| Chart.Names | stock-cli.py:100-101 | the series names in dictionary order |
| Chart.Normalized | stock-cli.py:52-55 | every series normalized against the same range, names and order kept |
| Chart.SeriesInPaddedRange | stock-cli.py:39-50 | every point of every series lies inside the ordered padded range |
| Chart.PlotsInRange | stock-cli.py:52-87 | every normalized value is in [0, HEIGHT), so every glyph lands on a canvas row 0..HEIGHT-1 |
| Chart.PaddedExtremeRows | stock-cli.py:46-55 | with a tenth of padding, the raw minimum lands on row 1 and the raw maximum on row 17 |
| Chart.PaddedRowBand | stock-cli.py:46-55 | every raw point of a non-degenerate range lands on a row between 1 and 17 |
| Chart.DegenerateRange | stock-cli.py:25-26 | when all points are equal, every series normalizes to row 0 |
| Chart.RowPriceEnds | stock-cli.py:106-110 | row 0 is labelled with the padded maximum, row HEIGHT - 1 with the padded minimum, and the labels strictly descend |
| Chart.PointShown | stock-cli.py:81-87 | a point whose cell no later series writes shows its series' glyph in the printed row |
| Chart.GridColumnsKept | stock-cli.py:68-87 | gridline columns show the background in every printed row |
| Chart.ChartOutcome | stock-cli.py:33-87 | the chart fails with NoData exactly when there are no points; it succeeds exactly when there are points and every name has a glyph; an UnknownSeries failure names such a series |
| Chart.GridLinesWidth | stock-cli.py:105-113 | every labelled row is the total width when the price labels of rows 0..HEIGHT have at most 24 characters |
| Chart.FooterWidths | stock-cli.py:115-128 | X-axis line total + 1, time line max(total, 7n + 11), bottom border total |
| Chart.ChartLinesShape | stock-cli.py:89-130 | 4 header lines, HEIGHT + 1 labelled rows and 3 footer lines, of the widths listed under ChartShape |
| Chart.ChartShape | stock-cli.py:33-130 | a successful chart has 28 lines: frame, title, blank and rows the total width 3n + 30, X axis one wider, time line max(total, 7n + 11), legend max(total - 9 per series, legend + 11) |
| Chart.ChartLegend | stock-cli.py:99-102 | the legend line of a successful chart shows `│ Legend: ` followed by each series' glyph, a space and its capitalized name, in dictionary order |
| Chart.ChartGlyphs | stock-cli.py:100 | in a successful chart every series has a glyph, and the legend shows exactly that glyph |
| Chart.ChartLinesLegend | stock-cli.py:89-130 | the chart has 28 lines and its third line is the legend line |
| Chart.TimeMarkers | stock-cli.py:119-122 | the loop collects every timestamp's `HH:MM` in order |
| Chart.ReadRow | stock-cli.py:112 | `''.join(row)` reads canvas row y as the printed row |
| Chart.AppendGridRows | stock-cli.py:105-113 | the row loop appends exactly the labelled rows 0..HEIGHT and skips the last canvas row |
| Chart.AssembleLines | stock-cli.py:89-130 | the assembled lines are header, labelled rows and footer, in that order |
| Chart.DrawCanvas | stock-cli.py:65-87 | fails with the first unknown name; otherwise every cell is the gridline background overwritten by the plotted series |
| Chart.PaddedBounds | stock-cli.py:43-50 | the padded bounds computed in place are the padded range |
| Chart.ScaleSeries | stock-cli.py:39-55 | padded range and normalized series, with every row in [0, HEIGHT) |
| Chart.GenerateGraph | stock-cli.py:33-130 | the pass-by-pass computation equals `Chart`, failures included |

## Left out

- Fetching and displaying data (`fetch_and_display_stock_data`, stock-cli.py:162-216) and the interactive loop (`main`, a `click.prompt` loop, stock-cli.py:218-241): the network, the screen and the prompt are outside the model; the series and timestamps are given as parameters.
- Chart.GenerateGraph, Chart.Chart: require `Chart.WellFormedInput`, which excludes two inputs the Python function accepts. Every series must be exactly as long as the timestamp list, as the only caller guarantees (stock-cli.py:191-197). In Python, a shorter series is plotted over fewer columns, one extra point still fits in column 3n + 1, and two or more extra points raise IndexError. Series names must also be distinct, as dictionary keys are.
- Colour codes (`colorama`): they are not emitted; only their length enters the padding, in the two places where the source measures them.
- Number formatting (`format_price` and the `8.2f` and `.2f` texts): these become parameters. `GenerateGraph` takes a function `fmt` from a price to its label. `SummaryBox` takes the texts it prints.
- `datetime.strptime`: the model assumes timestamps of the shape `YYYY-MM-DD HH:MM:SS` (a precondition) and takes `%H:%M` as characters 11 to 15; a timestamp that `strptime` rejects (e.g. a month 13) is not modelled.
- The percentage change and the choice of `price_data[...][0]` in the summary: computed by the caller and passed in as texts.
- Floating point: prices are exact reals, so rounding in `(p - min) / (max - min) * 19` is not modelled, and a value that IEEE arithmetic would place one row lower is not covered.
- The final `"\n".join(...)`: the model returns the list of lines.
- Text.Upper, Text.Capitalize: map only ASCII letters; Python's full Unicode case mapping is not modelled.
- Layout.SummaryBox: its own contract states only the number of lines; what the lines show and how wide they are is stated by `Layout.SummaryBoxFrame`, `Layout.SummaryBoxTexts` and `Layout.SummaryBoxWidths`.
