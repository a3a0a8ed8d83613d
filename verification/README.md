# Line rendering for pen plotters, modelled in Dafny

This project models the line-rendering core of the Dithering test
application. That core turns a raster image into straight segments that a
pen plotter can draw, and writes those segments out in plotter-friendly
formats. The model covers:

- **Pixel sampling** (`LineRenderHelper`, `pixels.dfy`):
  - brightness by the luminance formula;
  - darkness as one minus brightness;
  - bounds-safe lookup that reads white outside the image;
  - bilinear darkness at fractional coordinates;
  - clamping.
- **The segment** (`Plot`, `plot_line.dfy`): its two constructors and its length.
- **The run scan** (`RunScan`, `run_scan.dfy`), shared by both hatch renderers.
  A scan walks a straight path of pixels. A dark pixel opens a run, a light
  pixel closes it, and the end of the path closes a run left open. Each run
  becomes one segment. The lemmas prove that the runs are exactly the
  maximal blocks of dark pixels, in path order.
- **Counted loops** (`Stepping`, `stepping.dfy`): the values visited by
  loops such as `for (y = start; y < limit; y += step)` and the matching
  count-down loop.
- **The orthogonal hatch renderer** (`OrthogonalHatch`): rows, then
  columns, every `LineSpacing` pixels. With adaptive spacing, the gap after
  a line grows as the line gets lighter.
  Every line drawn is a maximal dark run of a visited row or column, and
  every such run is drawn.
- **The diagonal hatch renderer** (`DiagonalHatch`): 45-degree diagonals
  seeded down the left edge and then along the top edge, and 135-degree
  diagonals seeded down the right edge and then leftwards along the top
  edge. Seeds are `LineSpacing * 1.414` apart.
- **The concentric circles renderer** (`ConcentricCircles`): circle centers
  on a grid. Each circle is sampled at evenly spaced angles, and
  neighbouring samples are joined while both are on the canvas and dark.
- **The flow-field renderer** (`FlowField`):
  - a Sobel gradient field;
  - seeds on a grid;
  - traces that step along the gradient or across it, stopping when the
    gradient fades, the step leaves the canvas or lands on a light point,
    or the trace is long enough.
- **Shared helpers**: `Sequences` (`sequences.dfy`) holds regrouping facts
  about sequences, and `Wrappers` (`wrappers.dfy`) holds the `Option` type
  used by the circle and flow renderers.
- **The exporters** (`LineExporter`):
  - CSV, JSON and text files with one row per segment;
  - the total length;
  - the polyline file, which first chains segments whose ends meet (within
    0.1 pixel), greedily, so the pen is lifted less often.

Code that changes state step by step keeps that form. The renderers are
classes whose fields are the renderers' settable properties. Their methods
keep the source's loops. The shared output list is threaded through as
`lines` in and `out` out, and every method ensures
`out == lines + <specification function>`. The specification functions'
meaning is proved by separate lemmas. The gradient field is an `array2`
filled in place.

## Model

| member | source | states |
|---|---|---|
| LineRenderHelper.GetBrightness | src/LineRendering/LineRenderHelper.cs:17-21 | The luminance-weighted brightness of a colour lies in [0, 1]. |
| LineRenderHelper.GetDarkness | src/LineRendering/LineRenderHelper.cs:26-29 | Darkness lies in [0, 1]. |
| LineRenderHelper.DarknessZeroIffWhite | src/LineRendering/LineRenderHelper.cs:17-29 | A colour has darkness 0 exactly when its three channels are 255. |
| LineRenderHelper.DarknessOneIffBlack | src/LineRendering/LineRenderHelper.cs:17-29 | A colour has darkness 1 exactly when its three channels are 0. |
| LineRenderHelper.PixelAddress | src/LineRendering/LineRenderHelper.cs:40 | For an in-bounds pixel, the row-major index `y * width + x` lies inside the buffer and decodes back to (x, y). |
| LineRenderHelper.PixelAddressInjective | src/LineRendering/LineRenderHelper.cs:40 | Two in-bounds pixels with the same buffer index are the same pixel. |
| LineRenderHelper.GetPixelSafe | src/LineRendering/LineRenderHelper.cs:34-41 | Outside the image the lookup returns opaque white. |
| LineRenderHelper.GetDarknessAt | src/LineRendering/LineRenderHelper.cs:46-50 | Darkness at a pixel lies in [0, 1] and is 0 outside the image. |
| LineRenderHelper.GetDarknessAtFloat | src/LineRendering/LineRenderHelper.cs:55-74 | Bilinear darkness lies in [0, 1] and between the least and greatest of the four surrounding pixels' darkness. |
| LineRenderHelper.DarknessAtFloatOnGrid | src/LineRendering/LineRenderHelper.cs:55-74 | At integer coordinates, bilinear darkness is the pixel's own darkness. |
| LineRenderHelper.DarknessAtFloatBelow | src/LineRendering/LineRenderHelper.cs:55-74 | If every pixel is lighter than a positive threshold, so is every bilinear sample. |
| LineRenderHelper.WhiteIsBelow | src/LineRendering/LineRenderHelper.cs:26-50 | An all-white image is below every positive threshold at every pixel. |
| LineRenderHelper.BlackIsAtLeast | src/LineRendering/LineRenderHelper.cs:26-50 | An all-black image reaches every threshold up to 1 at every pixel. |
| LineRenderHelper.LerpBetween | src/LineRendering/LineRenderHelper.cs:70-73 | Interpolating between two values in [lo, hi] stays in [lo, hi]. |
| LineRenderHelper.LerpBelow | src/LineRendering/LineRenderHelper.cs:70-73 | Interpolating between two values below a bound stays below it. |
| LineRenderHelper.Clamp | src/LineRendering/LineRenderHelper.cs:79-84 | With min <= max the result lies in [min, max], a value already in range is kept, and the result is the value, min or max. |
| LineRenderHelper.ClampInt | src/LineRendering/LineRenderHelper.cs:89-94 | The same three facts for the `int` overload of `Clamp`, which the model keeps as a separate function over `int`. |
| Plot.FromCoords | src/LineRendering/PlotLine.cs:26-30 | The coordinate constructor builds the segment from (x1, y1) to (x2, y2). |
| Plot.SquaredLengthZero | src/LineRendering/PlotLine.cs:36-41 | The squared length is 0 for a degenerate segment and positive otherwise. |
| Plot.LengthNonNegative | src/LineRendering/PlotLine.cs:36-41 | With a true square root, a length is never negative. |
| Plot.LengthZeroIffDegenerate | src/LineRendering/PlotLine.cs:36-41 | The length is 0 when start and end coincide and positive otherwise. |
| Plot.LengthSymmetric | src/LineRendering/PlotLine.cs:36-41 | Reversing a segment keeps its length. |
| Plot.HorizontalLength | src/LineRendering/PlotLine.cs:36-41 | A horizontal segment is as long as the distance between its x coordinates. |
| Plot.VerticalLength | src/LineRendering/PlotLine.cs:36-41 | A vertical segment is as long as the distance between its y coordinates. |
| Plot.LengthExample | src/LineRendering/PlotLine.cs:36-41 | The segment from (0, 0) to (3, 4) has length 5. |
| Plot.RootUnique | src/LineRendering/PlotLine.cs:40 | A non-negative square root is unique, so the length is determined by the squared length. |
| Stepping.ProgressionValues | src/LineRendering/OrthogonalHatchRenderer.cs:57 | The values of a counting-up loop start at `start`, step by `step`, stay below `limit`, and the next value would reach it; there are none when `start >= limit`. |
| Stepping.CountdownValues | src/LineRendering/DiagonalHatchRenderer.cs:124 | The values of a counting-down loop start at `start`, step down by `step`, stay at or above 0, and the next value would be negative. |
| Stepping.ProgressionAt | src/LineRendering/OrthogonalHatchRenderer.cs:57 | The k-th value of a counting-up loop is `start + k * step`. |
| Stepping.CountdownAt | src/LineRendering/DiagonalHatchRenderer.cs:124 | The k-th value of a counting-down loop is `start - k * step`. |
| Stepping.ProgressionLength | src/LineRendering/OrthogonalHatchRenderer.cs:57 | The number of values is the first n at which `start + n * step` reaches the limit. |
| Stepping.CountdownLength | src/LineRendering/DiagonalHatchRenderer.cs:124 | The number of values is the first n at which `start - n * step` drops below 0. |
| Stepping.StepDecreases | src/LineRendering/OrthogonalHatchRenderer.cs:57 | A step of at least one unit lowers the remaining distance, counted in units, by at least one, so the loop ends. |
| Stepping.CountUpStarts | src/LineRendering/OrthogonalHatchRenderer.cs:57 | Before the first pass the counter holds the first value, and the loop runs exactly when there is one. |
| Stepping.CountUp | src/LineRendering/OrthogonalHatchRenderer.cs:57 | One pass of a counting-up loop moves it from the n-th value to the (n+1)-th, and the loop test holds exactly while values remain. |
| Stepping.CountSpaced | src/LineRendering/ConcentricCirclesRenderer.cs:43-45 | The same step for any sequence with the counting-up shape. |
| Stepping.CountDownStarts | src/LineRendering/DiagonalHatchRenderer.cs:124 | Before the first pass of the counting-down loop the counter holds the first value, and the loop runs exactly when there is one. |
| Stepping.CountDown | src/LineRendering/DiagonalHatchRenderer.cs:124 | One pass of the counting-down loop moves it to the next value, and the loop test holds exactly while values remain. |
| Stepping.CountSpacedDown | src/LineRendering/DiagonalHatchRenderer.cs:124 | The same step for any sequence with the counting-down shape. |
| RunScan.PrefixInvHolds | src/LineRendering/OrthogonalHatchRenderer.cs:63-86 | After any prefix of the path, the closed runs are the maximal dark blocks seen so far, and the open run starts a dark block that reaches the current pixel. |
| RunScan.StepKeepsInv | src/LineRendering/OrthogonalHatchRenderer.cs:67-85 | One pixel of the scan keeps that invariant. |
| RunScan.OpenKeepsInv | src/LineRendering/OrthogonalHatchRenderer.cs:69-76 | Opening a run on a dark pixel keeps the invariant. |
| RunScan.CloseKeepsRuns | src/LineRendering/OrthogonalHatchRenderer.cs:77-85 | Closing the open run on a light pixel adds a maximal dark block. |
| RunScan.CloseKeepsCover | src/LineRendering/OrthogonalHatchRenderer.cs:77-85 | After a close, the dark pixels seen are exactly those covered by the closed runs. |
| RunScan.RunsAreMaximal | src/LineRendering/OrthogonalHatchRenderer.cs:63-92 | Every run the scan reports is a maximal block of dark pixels. |
| RunScan.RunsAreSeparated | src/LineRendering/OrthogonalHatchRenderer.cs:63-92 | The runs come in path order, each at least one light pixel after the previous one. |
| RunScan.RunsCoverDarkPixels | src/LineRendering/OrthogonalHatchRenderer.cs:63-92 | A pixel is dark exactly when some run covers it. |
| RunScan.MaximalRunsMeet | src/LineRendering/OrthogonalHatchRenderer.cs:63-92 | Two maximal dark blocks that share a pixel are the same block. |
| RunScan.MaximalRunsAreRuns | src/LineRendering/OrthogonalHatchRenderer.cs:63-92 | Conversely, every maximal dark block is reported. |
| RunScan.RunsAllDark | src/LineRendering/OrthogonalHatchRenderer.cs:88-92 | An all-dark path gives one run from the first pixel to the last, closed at the edge. |
| RunScan.RunsAllLight | src/LineRendering/OrthogonalHatchRenderer.cs:63-92 | An all-light path gives no run. |
| RunScan.FirstRunStartsDark | src/LineRendering/OrthogonalHatchRenderer.cs:72-75 | The first run starts on a dark pixel inside the path. |
| RunScan.ExtentBound | src/LineRendering/DiagonalHatchRenderer.cs:75 | A position lies on the path exactly when the scan's loop condition holds there (row, column, 45 or 135 degrees). |
| RunScan.PathInGrid | src/LineRendering/DiagonalHatchRenderer.cs:137 | Every pixel on a path that starts inside the image is inside the image. |
| RunScan.DarkAlong | src/LineRendering/OrthogonalHatchRenderer.cs:65-69 | One darkness test per pixel of the path. |
| RunScan.DarkAlongAt | src/LineRendering/OrthogonalHatchRenderer.cs:67-69 | The k-th test says whether the k-th pixel's darkness reaches the threshold. |
| RunScan.ScanAdvance | src/LineRendering/OrthogonalHatchRenderer.cs:67-85 | One pixel of the scan loop keeps its invariant: output so far, plus the open run, describe the prefix scanned. |
| RunScan.ScanComplete | src/LineRendering/OrthogonalHatchRenderer.cs:88-92 | Closing a run left open at the edge completes the output to the segments of all runs. |
| RunScan.ScansLinesConcat | src/LineRendering/OrthogonalHatchRenderer.cs:57-100 | Scanning two lists of paths gives the first list's segments, then the second's. |
| RunScan.ScansLinesMember | src/LineRendering/OrthogonalHatchRenderer.cs:57-100 | A segment is drawn by a list of scans exactly when one of the scans draws it. |
| RunScan.ScanSegmentsAreDarkRuns | src/LineRendering/OrthogonalHatchRenderer.cs:63-92 | The j-th segment of a scan joins the ends of a maximal dark block. |
| RunScan.SegmentRun | src/LineRendering/OrthogonalHatchRenderer.cs:63-92 | Every segment of a scan comes from a block of dark pixels that cannot be extended at either end. |
| RunScan.MaximalRunIsDark | src/LineRendering/OrthogonalHatchRenderer.cs:63-92 | A maximal block is dark throughout, and the pixels just before and after it are light or off the path. |
| RunScan.DarkPixelsAreDrawn | src/LineRendering/OrthogonalHatchRenderer.cs:63-92 | Every dark pixel on a path lies within one of the drawn segments' runs. |
| RunScan.LightImageNoSegments | src/LineRendering/OrthogonalHatchRenderer.cs:63-92 | A scan of an image lighter than a positive threshold draws nothing. |
| RunScan.ScansLinesOfLightImage | src/LineRendering/OrthogonalHatchRenderer.cs:57-100 | Any list of scans of such an image draws nothing. |
| RunScan.DarkImageOneSegment | src/LineRendering/OrthogonalHatchRenderer.cs:88-92 | A scan of an image dark enough everywhere draws one segment over its whole path. |
| RunScan.ScansLinesOfDarkImage | src/LineRendering/OrthogonalHatchRenderer.cs:57-100 | A list of scans of such an image draws each path whole, one segment each. |
| OrthogonalHatch.DarknessSum | src/LineRendering/OrthogonalHatchRenderer.cs:155-159 | The running sum of n darkness values lies in [0, n]. |
| OrthogonalHatch.Mean | src/LineRendering/OrthogonalHatchRenderer.cs:160 | The average is NaN exactly for an empty line; otherwise it lies in [0, 1] and times the count gives back the sum. |
| OrthogonalHatch.AdaptiveSpacingRange | src/LineRendering/OrthogonalHatchRenderer.cs:98 | The adaptive gap lies between one and three line spacings, never grows as the line gets darker, is one spacing for black and three for white. |
| OrthogonalHatch.Gap | src/LineRendering/OrthogonalHatchRenderer.cs:94-99 | The gap after a line is NaN exactly when adaptive spacing is on and that line's average is NaN. |
| OrthogonalHatch.GapRange | src/LineRendering/OrthogonalHatchRenderer.cs:94-99 | A finite gap lies between one and three line spacings. |
| OrthogonalHatch.LineAverages | src/LineRendering/OrthogonalHatchRenderer.cs:153-171 | One average per row (or column), each NaN or in [0, 1]. |
| OrthogonalHatch.LineAveragesAt | src/LineRendering/OrthogonalHatchRenderer.cs:153-171 | Entry p is the average of row (or column) p. |
| OrthogonalHatch.PositionsAscending | src/LineRendering/OrthogonalHatchRenderer.cs:57-60 | The rows a sweep visits start at the first value, ascend (strictly when the spacing is at least 1), stay inside the image, and there are none only when the sweep starts past the edge. |
| OrthogonalHatch.FixedSpacingPositions | src/LineRendering/OrthogonalHatchRenderer.cs:57-60 | Without adaptive spacing, the rows visited are the truncated values of the counting loop. |
| OrthogonalHatch.AdaptiveStopsAtNaN | src/LineRendering/OrthogonalHatchRenderer.cs:94-99 | With adaptive spacing, every row but the last has a finite average; a NaN gap ends the sweep. |
| OrthogonalHatch.PositionsAdvance | src/LineRendering/OrthogonalHatchRenderer.cs:57-99 | One pass of the sweep with a finite gap moves at least one spacing on and extends the rows visited by the current one. |
| OrthogonalHatch.PositionsStop | src/LineRendering/OrthogonalHatchRenderer.cs:94-99 | A NaN gap makes the current row the last. |
| OrthogonalHatch.PositionsDone | src/LineRendering/OrthogonalHatchRenderer.cs:57 | Leaving the loop past the edge has visited every row. |
| OrthogonalHatch.DrawnAdvance | src/LineRendering/OrthogonalHatchRenderer.cs:62-92 | Scanning the next row extends the output by that row's segments. |
| OrthogonalHatch.SweepPass | src/LineRendering/OrthogonalHatchRenderer.cs:57-99 | One pass of a sweep covers the row (column) it scans. A NaN gap then makes that row the last one visited. A finite gap is at least one line spacing and leads on to exactly the rows still to visit. |
| OrthogonalHatch.DrawnAll | src/LineRendering/OrthogonalHatchRenderer.cs:53-101 | Having scanned every visited row, the output is the sweep's lines. |
| OrthogonalHatch.FixedSweepPositions | src/LineRendering/OrthogonalHatchRenderer.cs:55-60 | A fixed-spacing sweep visits the truncations of 0, s, 2s, ... below the image's height (or width). |
| OrthogonalHatch.SweepVisitsLines | src/LineRendering/OrthogonalHatchRenderer.cs:53-60 | A sweep visits row 0 first and only rows inside the image. It visits none only for an empty image. With a spacing of at least 1 it visits no row twice. |
| OrthogonalHatch.LightImageNoLines | src/LineRendering/OrthogonalHatchRenderer.cs:36-51 | An image lighter than a positive threshold gets no hatch lines. |
| OrthogonalHatch.SweepLineIsDarkRun | src/LineRendering/OrthogonalHatchRenderer.cs:53-151 | Every line a sweep draws runs along a visited row (column) p inside the image, from pixel lo to pixel hi with 0 <= lo <= hi < width (height). Every pixel it covers is dark, and the pixels just beyond each end are light or off the image. |
| OrthogonalHatch.SweepLinesComplete | src/LineRendering/OrthogonalHatchRenderer.cs:63-92 | Conversely, every maximal dark run on a visited row (column) is drawn as a line of the sweep. |
| OrthogonalHatch.DarkImageFullLines | src/LineRendering/OrthogonalHatchRenderer.cs:53-151 | On an image dark enough everywhere, every visited row gets one segment across the full width, and every visited column one down the full height. |
| OrthogonalHatch.LinesOfDarkImage | src/LineRendering/OrthogonalHatchRenderer.cs:63-92 | On such an image, any list of rows (columns) in range gives one full-length segment per row (column), in order. |
| OrthogonalHatch.SpacingFourOverTen | src/LineRendering/OrthogonalHatchRenderer.cs:57-60 | A fixed spacing of 4 over 10 rows (columns) visits 0, 4 and 8. |
| OrthogonalHatch.DarkTenByTenSweep | src/LineRendering/OrthogonalHatchRenderer.cs:53-151 | Either sweep of a 10 by 10 image dark everywhere, at fixed spacing 4, gives full-length lines at 0, 4 and 8. |
| OrthogonalHatch.DarkTenByTenHatch | src/LineRendering/OrthogonalHatchRenderer.cs:36-151 | A 10 by 10 image dark everywhere, hatched both ways at spacing 4, gets rows 0, 4 and 8 and then columns 0, 4 and 8, each of them a segment across the whole image. |
| OrthogonalHatch.OrthogonalHatchRenderer.constructor | src/LineRendering/OrthogonalHatchRenderer.cs:20-30 | Both directions on and adaptive spacing off. |
| OrthogonalHatch.OrthogonalHatchRenderer.GenerateLines | src/LineRendering/OrthogonalHatchRenderer.cs:36-51 | The horizontal lines when enabled, then the vertical lines when enabled. |
| OrthogonalHatch.OrthogonalHatchRenderer.GenerateHorizontalLines | src/LineRendering/OrthogonalHatchRenderer.cs:53-101 | Appends the segments of every row the sweep visits, fixed or adaptive. |
| OrthogonalHatch.OrthogonalHatchRenderer.SweepRow | src/LineRendering/OrthogonalHatchRenderer.cs:59-99 | One pass of the row sweep: appends the row's segments and returns the gap to the next row. |
| OrthogonalHatch.OrthogonalHatchRenderer.GenerateVerticalLines | src/LineRendering/OrthogonalHatchRenderer.cs:103-151 | Appends the segments of every column the sweep visits. |
| OrthogonalHatch.OrthogonalHatchRenderer.SweepColumn | src/LineRendering/OrthogonalHatchRenderer.cs:109-149 | One pass of the column sweep: appends the column's segments and returns the gap to the next column. |
| OrthogonalHatch.OrthogonalHatchRenderer.ScanRow | src/LineRendering/OrthogonalHatchRenderer.cs:63-92 | Appends exactly the segments of the row's runs. |
| OrthogonalHatch.OrthogonalHatchRenderer.ScanColumn | src/LineRendering/OrthogonalHatchRenderer.cs:113-142 | Appends exactly the segments of the column's runs. |
| OrthogonalHatch.OrthogonalHatchRenderer.GetAverageDarknessInRow | src/LineRendering/OrthogonalHatchRenderer.cs:153-161 | Returns the row's average darkness, NaN for a zero width. |
| OrthogonalHatch.OrthogonalHatchRenderer.GetAverageDarknessInColumn | src/LineRendering/OrthogonalHatchRenderer.cs:163-171 | Returns the column's average darkness, NaN for a zero height. |
| DiagonalHatch.DiagonalSpacing | src/LineRendering/DiagonalHatchRenderer.cs:50 | The seed spacing exceeds the line spacing. |
| DiagonalHatch.EdgeAdvance | src/LineRendering/DiagonalHatchRenderer.cs:56-59 | Scanning the diagonal of the next counter value extends the edge's output by its segments. |
| DiagonalHatch.EdgeStepUp | src/LineRendering/DiagonalHatchRenderer.cs:56-59 | One pass of a counting-up edge loop moves to the next counter value and keeps the output invariant. |
| DiagonalHatch.EdgeStepDown | src/LineRendering/DiagonalHatchRenderer.cs:124-127 | One pass of the counting-down top-edge loop does the same. |
| DiagonalHatch.EdgeDone | src/LineRendering/DiagonalHatchRenderer.cs:56-59 | Leaving an edge loop has appended the lines of all the edge's seeds. |
| DiagonalHatch.FamiliesDone | src/LineRendering/DiagonalHatchRenderer.cs:31-46 | The output is the 45-degree family when enabled, then the 135-degree family when enabled. |
| DiagonalHatch.EdgeSeedAt | src/LineRendering/DiagonalHatchRenderer.cs:56-65 | The k-th seed of an edge is the diagonal at its k-th counter value in closed form: k spacings along a side edge, k + 1 spacings in from the corner along the top. |
| DiagonalHatch.EdgeCounterAt | src/LineRendering/DiagonalHatchRenderer.cs:56-65 | The k-th counter value of each edge in closed form. |
| DiagonalHatch.EdgeSeedCount | src/LineRendering/DiagonalHatchRenderer.cs:56-65 | An edge has seeds until the counter passes its end, and no further. |
| DiagonalHatch.CounterLength | src/LineRendering/DiagonalHatchRenderer.cs:56-121 | The same count for the three counting-up edges. |
| DiagonalHatch.CounterValueInRange | src/LineRendering/DiagonalHatchRenderer.cs:56-127 | Every counter value lies within its edge: below the height, below the width, or within 0 and width - 1. |
| DiagonalHatch.SeedOnBorder | src/LineRendering/DiagonalHatchRenderer.cs:58-126 | A seed from a counter value in range starts on the image's border, on the family's diagonal, and has a non-empty path. |
| DiagonalHatch.EdgeSeedOnBorder | src/LineRendering/DiagonalHatchRenderer.cs:56-127 | Every seed of an edge starts on the border and goes in its family's direction. |
| DiagonalHatch.EdgeSeedsOnBorder | src/LineRendering/DiagonalHatchRenderer.cs:56-127 | The same for all seeds of an edge together. |
| DiagonalHatch.CounterValuesApart | src/LineRendering/DiagonalHatchRenderer.cs:56-127 | With a spacing of at least one pixel, counter values of an edge are at least a pixel apart. |
| DiagonalHatch.EdgeSeedsDistinct | src/LineRendering/DiagonalHatchRenderer.cs:56-127 | With a spacing of at least one pixel, an edge seeds no diagonal twice. |
| DiagonalHatch.TopSkipsCorner | src/LineRendering/DiagonalHatchRenderer.cs:61-65 | With a spacing of at least one pixel, the top-edge loop never seeds the corner diagonal the side-edge loop already drew. |
| DiagonalHatch.FamilyLines | src/LineRendering/DiagonalHatchRenderer.cs:48-66 | A family's lines are the scans of the side-edge seeds followed by the top-edge seeds. |
| DiagonalHatch.FamilySeedsDistinct | src/LineRendering/DiagonalHatchRenderer.cs:48-66 | With a spacing of at least one pixel, a family scans no diagonal twice. |
| DiagonalHatch.FromPixel | src/LineRendering/DiagonalHatchRenderer.cs:99-100 | Starting a diagonal scan k pixels further along reaches the same pixels shifted by k. |
| DiagonalHatch.RunIsStretch | src/LineRendering/DiagonalHatchRenderer.cs:93 | A dark run between in-image pixels is a dark stretch along the diagonal through its segment. |
| DiagonalHatch.RunIsStretchFrom | src/LineRendering/DiagonalHatchRenderer.cs:93 | The same, stated for the diagonal started at the run's first pixel. |
| DiagonalHatch.FromSegmentStart | src/LineRendering/DiagonalHatchRenderer.cs:93 | The diagonal through a drawn segment starts at the run's first pixel, and the run spans the segment's rows. |
| DiagonalHatch.BorderSegmentIsDarkStretch | src/LineRendering/DiagonalHatchRenderer.cs:68-108 | A segment drawn from a border seed covers dark pixels only. The pixels just beyond either end are light or outside the image. |
| DiagonalHatch.EdgeLinesAreDarkStretches | src/LineRendering/DiagonalHatchRenderer.cs:56-65 | Every line of an edge is such a maximal dark stretch in the edge's direction. |
| DiagonalHatch.Lines45AreDarkDiagonals | src/LineRendering/DiagonalHatchRenderer.cs:48-108 | Every 45-degree line is a maximal dark stretch of a 45-degree diagonal. |
| DiagonalHatch.Lines135AreDarkDiagonals | src/LineRendering/DiagonalHatchRenderer.cs:110-170 | Every 135-degree line is a maximal dark stretch of a 135-degree diagonal. |
| DiagonalHatch.EdgeLinesComplete | src/LineRendering/DiagonalHatchRenderer.cs:56-108 | Conversely, every maximal dark block on a seeded diagonal is drawn. |
| DiagonalHatch.LightImageNoDiagonals | src/LineRendering/DiagonalHatchRenderer.cs:31-46 | An image lighter than a positive threshold gets no diagonals. |
| DiagonalHatch.DarkImageWholeDiagonals | src/LineRendering/DiagonalHatchRenderer.cs:56-108 | On an image dark enough everywhere, every seeded diagonal is drawn whole, border to border. |
| DiagonalHatch.DiagonalHatchRenderer.constructor | src/LineRendering/DiagonalHatchRenderer.cs:20-25 | Both families on. |
| DiagonalHatch.DiagonalHatchRenderer.GenerateLines | src/LineRendering/DiagonalHatchRenderer.cs:31-46 | The enabled families' lines, 45 degrees first. |
| DiagonalHatch.DiagonalHatchRenderer.Generate45DegreeLines | src/LineRendering/DiagonalHatchRenderer.cs:48-66 | Appends the 45-degree family: left-edge seeds, then top-edge seeds. |
| DiagonalHatch.DiagonalHatchRenderer.ScanLeftEdge | src/LineRendering/DiagonalHatchRenderer.cs:56-59 | Appends the scans seeded at every value of the left-edge loop. |
| DiagonalHatch.DiagonalHatchRenderer.ScanTopEdge45 | src/LineRendering/DiagonalHatchRenderer.cs:62-65 | Appends the scans seeded at every value of the top-edge loop. |
| DiagonalHatch.DiagonalHatchRenderer.Generate135DegreeLines | src/LineRendering/DiagonalHatchRenderer.cs:110-128 | Appends the 135-degree family: right-edge seeds, then top-edge seeds leftwards. |
| DiagonalHatch.DiagonalHatchRenderer.ScanRightEdge | src/LineRendering/DiagonalHatchRenderer.cs:118-121 | Appends the scans seeded at every value of the right-edge loop. |
| DiagonalHatch.DiagonalHatchRenderer.ScanTopEdge135 | src/LineRendering/DiagonalHatchRenderer.cs:124-127 | Appends the scans seeded at every value of the counting-down top-edge loop. |
| DiagonalHatch.DiagonalHatchRenderer.ScanDiagonal45 | src/LineRendering/DiagonalHatchRenderer.cs:68-108 | Appends exactly the segments of the dark runs along the 45-degree diagonal from the start pixel. |
| DiagonalHatch.DiagonalHatchRenderer.ScanDiagonal135 | src/LineRendering/DiagonalHatchRenderer.cs:130-170 | Appends exactly the segments of the dark runs along the 135-degree diagonal from the start pixel. |
| ConcentricCircles.MaxR | src/LineRendering/ConcentricCirclesRenderer.cs:56 | The radius limit is the smaller of the maximum radius and ten line spacings. |
| ConcentricCircles.LinesSource | src/LineRendering/ConcentricCirclesRenderer.cs:43-61 | Every line of a grid, row or set of rings comes from one of its parts. |
| ConcentricCircles.LinesHas | src/LineRendering/ConcentricCirclesRenderer.cs:43-61 | Every line of a part is a line of the whole. |
| ConcentricCircles.LinesAdvance | src/LineRendering/ConcentricCirclesRenderer.cs:43-61 | One pass of a nested loop appends the next part. |
| ConcentricCircles.CenterPositions | src/LineRendering/ConcentricCirclesRenderer.cs:41-45 | Centers sit at g/2 + k*g, strictly inside the canvas, and the next one would reach the edge. |
| ConcentricCircles.RadiiValues | src/LineRendering/ConcentricCirclesRenderer.cs:56-58 | The k-th radius is (k + 1) increments, all radii are positive and below the limit, and the next would reach it. |
| ConcentricCircles.ArcsStep | src/LineRendering/ConcentricCirclesRenderer.cs:70-115 | One pass of the circle loop appends the chord ending at the current sample, if any. |
| ConcentricCircles.JoinStep | src/LineRendering/ConcentricCirclesRenderer.cs:77-114 | The current sample is joined to the previous point exactly when both are on the canvas and dark, and it becomes the previous point exactly then. |
| ConcentricCircles.ArcsCount | src/LineRendering/ConcentricCirclesRenderer.cs:70-115 | n samples give at most n - 1 segments. |
| ConcentricCircles.ArcsSource | src/LineRendering/ConcentricCirclesRenderer.cs:101-105 | Every segment of a circle joins two neighbouring dark samples. |
| ConcentricCircles.ArcsPrefix | src/LineRendering/ConcentricCirclesRenderer.cs:70-115 | The arcs through the first m samples come first among those through the first n. |
| ConcentricCircles.ArcsJoin | src/LineRendering/ConcentricCirclesRenderer.cs:101-105 | Every pair of neighbouring dark samples is joined, right after the arcs of the samples before. |
| ConcentricCircles.ArcsContinue | src/LineRendering/ConcentricCirclesRenderer.cs:93-108 | Three dark samples in a row give two segments that meet at the middle sample. |
| ConcentricCircles.ArcsAllDark | src/LineRendering/ConcentricCirclesRenderer.cs:70-115 | When every sample is dark, the circle is one unbroken chain of n - 1 segments. |
| ConcentricCircles.DrawnLineIsChord | src/LineRendering/ConcentricCirclesRenderer.cs:36-116 | Every drawn line joins neighbouring samples of some circle around some grid center, and both samples are on the canvas and dark. |
| ConcentricCircles.ChordIsDrawn | src/LineRendering/ConcentricCirclesRenderer.cs:36-116 | Conversely, every such pair of samples is drawn. |
| ConcentricCircles.LightImageNoCircles | src/LineRendering/ConcentricCirclesRenderer.cs:36-116 | An image lighter than a positive threshold gets no circles. |
| ConcentricCircles.ConcentricCirclesRenderer.constructor | src/LineRendering/ConcentricCirclesRenderer.cs:20-30 | Increment 3, maximum radius 50, 36 segments. |
| ConcentricCircles.ConcentricCirclesRenderer.GenerateLines | src/LineRendering/ConcentricCirclesRenderer.cs:36-52 | The circles around every grid center, row by row. |
| ConcentricCircles.ConcentricCirclesRenderer.DrawRow | src/LineRendering/ConcentricCirclesRenderer.cs:45-48 | Appends the circles around every center of one grid row. |
| ConcentricCircles.ConcentricCirclesRenderer.DrawConcentricCircles | src/LineRendering/ConcentricCirclesRenderer.cs:54-62 | Appends every circle around a center, smallest first. |
| ConcentricCircles.ConcentricCirclesRenderer.DrawCircle | src/LineRendering/ConcentricCirclesRenderer.cs:64-116 | Appends the arcs through samples 0 to `CircleSegments` of one circle. |
| FlowField.WeakGradient | src/LineRendering/FlowFieldRenderer.cs:73-76 | A gradient is shorter than 0.01 exactly when its squared norm is below 0.0001. |
| FlowField.LengthBelow | src/LineRendering/FlowFieldRenderer.cs:173-176 | A vector is shorter than a positive bound exactly when its squared norm is below the bound squared. |
| FlowField.NormalizeUnit | src/LineRendering/FlowFieldRenderer.cs:178-183 | A vector at least 0.001 long normalises to a unit vector. |
| FlowField.Direction | src/LineRendering/FlowFieldRenderer.cs:79 | Following the gradient keeps it. Otherwise the direction is perpendicular to the gradient. Either way it is as long as the gradient. |
| FlowField.Trunc | src/LineRendering/FlowFieldRenderer.cs:146-147 | The integer cast truncates toward zero: the result lies between 0 and the value, and less than 1 away from it. |
| FlowField.SobelUniform | src/LineRendering/FlowFieldRenderer.cs:121-135 | A uniform 3x3 neighbourhood has a zero gradient. |
| FlowField.SobelBounded | src/LineRendering/FlowFieldRenderer.cs:121-135 | Each Sobel component lies in [-4, 4]. |
| FlowField.GradientAtInterior | src/LineRendering/FlowFieldRenderer.cs:144-156 | Inside the interior the lookup gives the Sobel gradient of the truncated pixel, elsewhere the zero vector. |
| FlowField.FlowFieldRenderer.GradientLookup | src/LineRendering/FlowFieldRenderer.cs:144-156 | Looking up an array that holds a flow's field gives that flow's gradient. |
| FlowField.FlowFieldRenderer.CalculateGradientField | src/LineRendering/FlowFieldRenderer.cs:112-142 | A fresh array holding the Sobel gradient at every interior pixel and zero on the border. |
| FlowField.StepFrom | src/LineRendering/FlowFieldRenderer.cs:70-97 | A step that is taken lands on the field, on a point dark enough, from a gradient at least 0.01 long. |
| FlowField.StepOutcome | src/LineRendering/FlowFieldRenderer.cs:70-97 | The trace stops exactly when the gradient is weak, the step leaves the field, or it lands on a light point; otherwise it moves to the candidate. |
| FlowField.WeakGradientStops | src/LineRendering/FlowFieldRenderer.cs:73-76 | A gradient with squared norm below 0.0001 stops the trace. |
| FlowField.UnitStepLength | src/LineRendering/FlowFieldRenderer.cs:83-84 | A step along a unit vector is as long as the absolute step size. |
| FlowField.StepLength | src/LineRendering/FlowFieldRenderer.cs:104 | Every segment of a trace is exactly as long as the step size. |
| FlowField.StepIsCandidate | src/LineRendering/FlowFieldRenderer.cs:79-84 | A step taken moves by the step size along the normalised direction of a gradient at least 0.01 long. |
| FlowField.StepDirection | src/LineRendering/FlowFieldRenderer.cs:79-84 | A step taken is parallel to the gradient when following it, and perpendicular to it otherwise. |
| FlowField.AdvanceDirection | src/LineRendering/FlowFieldRenderer.cs:79-84 | The same alignment for any step along the normalised direction. |
| FlowField.RemainingDecreases | src/LineRendering/FlowFieldRenderer.cs:68 | Adding a positive segment length lowers the steps left before the maximum length, so the trace ends. |
| FlowField.WalkSteps | src/LineRendering/FlowFieldRenderer.cs:68-109 | The walk is a chain of steps from the start. It ends where a step fails or the length is reached. |
| FlowField.IsWalkCons | src/LineRendering/FlowFieldRenderer.cs:99-108 | A step followed by a walk from its end is a walk from the start. |
| FlowField.WalkUnique | src/LineRendering/FlowFieldRenderer.cs:68-109 | There is only one such chain: any chain with those properties is the walk. |
| FlowField.WalkStep | src/LineRendering/FlowFieldRenderer.cs:99-108 | Below the maximum length, a successful step adds its segment before the rest of the walk. |
| FlowField.WalkStop | src/LineRendering/FlowFieldRenderer.cs:73-97 | A failed step ends the walk. |
| FlowField.TraceStaysDark | src/LineRendering/FlowFieldRenderer.cs:86-97 | Every point a trace reaches lies on the field and is dark enough. |
| FlowField.RowStep | src/LineRendering/FlowFieldRenderer.cs:43-53 | One pass of the seed-column loop moves to the next seed and appends its trace. |
| FlowField.GridStep | src/LineRendering/FlowFieldRenderer.cs:41-54 | One pass of the seed-row loop moves to the next row and appends its traces. |
| FlowField.RowLines | src/LineRendering/FlowFieldRenderer.cs:43-53 | A line is drawn by a seed row exactly when it belongs to the trace of one of its dark seeds. |
| FlowField.GridLines | src/LineRendering/FlowFieldRenderer.cs:41-54 | A line is drawn by the grid exactly when it belongs to the trace of one of its dark seeds. |
| FlowField.SeedGrid | src/LineRendering/FlowFieldRenderer.cs:39-43 | Seeds lie strictly inside the canvas, starting at half a spacing, two line spacings apart, and the next would reach the edge. |
| FlowField.DrawnLineIsTraced | src/LineRendering/FlowFieldRenderer.cs:31-110 | A line is drawn exactly when it belongs to the trace from some seed of the grid that is dark enough. |
| FlowField.LightImageNoFlowLines | src/LineRendering/FlowFieldRenderer.cs:45-52 | An image lighter than a positive threshold gets no flow lines. |
| FlowField.ImageDescribed | src/LineRendering/FlowFieldRenderer.cs:36 | The array computed from the image describes the image's flow. |
| FlowField.FlowFieldRenderer.constructor | src/LineRendering/FlowFieldRenderer.cs:20-25 | Step size 1, perpendicular to the gradient. |
| FlowField.FlowFieldRenderer.GenerateLines | src/LineRendering/FlowFieldRenderer.cs:31-57 | Returns the traces from every dark seed of the grid, row by row. |
| FlowField.FlowFieldRenderer.TraceGrid | src/LineRendering/FlowFieldRenderer.cs:41-54 | Appends the traces of every seed row, top to bottom. |
| FlowField.FlowFieldRenderer.TraceRow | src/LineRendering/FlowFieldRenderer.cs:43-53 | Appends the traces of the dark seeds of one row, left to right. |
| FlowField.FlowFieldRenderer.TraceSeed | src/LineRendering/FlowFieldRenderer.cs:45-52 | Appends the trace from a seed when the seed is dark enough, and nothing otherwise. |
| FlowField.FlowFieldRenderer.TraceFlowLine | src/LineRendering/FlowFieldRenderer.cs:59-110 | Appends the walk from the start point, with segments as long as the step size, up to the maximum length. |
| FlowField.FlowFieldRenderer.NextPoint | src/LineRendering/FlowFieldRenderer.cs:70-97 | Returns the step the trace takes from the current point, or none where it stops. |
| LineExporter.PointsAreClose | src/LineRendering/LineExporter.cs:160-165 | Close points differ by less than the tolerance in each coordinate, and a point is close to itself. |
| LineExporter.PointsAreCloseSymmetric | src/LineRendering/LineExporter.cs:160-165 | Closeness is symmetric. |
| LineExporter.TotalLengthAppend | src/LineRendering/LineExporter.cs:106-114 | The total length of two lists is the sum of their totals. |
| LineExporter.TotalLengthNonNegative | src/LineRendering/LineExporter.cs:106-114 | With a true square root the total length is never negative. |
| LineExporter.CalculateTotalLength | src/LineRendering/LineExporter.cs:106-114 | Returns the sum of the segments' lengths. |
| LineExporter.ReadLinesAppend | src/LineRendering/LineExporter.cs:19-71 | Reading back two blocks of rows reads the first, then the second. |
| LineExporter.ReadLinesOfOthers | src/LineRendering/LineExporter.cs:24 | Header and frame rows carry no segment. |
| LineExporter.ExportToCsv | src/LineRendering/LineExporter.cs:19-32 | The header row, then one x1,y1,x2,y2 row per segment, in order. |
| LineExporter.ExportToJson | src/LineRendering/LineExporter.cs:37-57 | The opening rows, one object per segment with a comma on every one but the last, the closing bracket, the count, the total length, and the closing brace. |
| LineExporter.ExportToText | src/LineRendering/LineExporter.cs:62-71 | One x1 y1 x2 y2 row per segment, in order. |
| LineExporter.ReadBackRows | src/LineRendering/LineExporter.cs:27-30 | Rows that each read back as one segment read back as the whole list. |
| LineExporter.CsvRoundTrip | src/LineRendering/LineExporter.cs:19-32 | Reading a CSV file back gives the exported segments. |
| LineExporter.CsvBodyReadsBack | src/LineRendering/LineExporter.cs:27-30 | The rows after the header read back as the segments. |
| LineExporter.JsonRoundTrip | src/LineRendering/LineExporter.cs:37-57 | Reading a JSON file back gives the exported segments. |
| LineExporter.JsonBodyReadsBack | src/LineRendering/LineExporter.cs:44-50 | The object rows read back as the segments. |
| LineExporter.JsonFrameReadsNothing | src/LineRendering/LineExporter.cs:41-55 | The frame rows carry no segment. |
| LineExporter.ReadLinesFramed | src/LineRendering/LineExporter.cs:37-57 | Rows framed by rows that carry no segment read back as the framed part. |
| LineExporter.TextRoundTrip | src/LineRendering/LineExporter.cs:62-71 | Reading a text file back gives the exported segments. |
| LineExporter.Range | src/LineRendering/LineExporter.cs:122 | The set of all segment indices. |
| LineExporter.FirstClose | src/LineRendering/LineExporter.cs:139-151 | Returns the first unused index from j whose segment starts close to the point, or the list's length if none. |
| LineExporter.FirstCloseMeaning | src/LineRendering/LineExporter.cs:139-151 | The match is unused and close. Every index skipped before it is used or not close. |
| LineExporter.FirstCloseSkips | src/LineRendering/LineExporter.cs:141-144 | A used or distant index is skipped. |
| LineExporter.ShrinkUnused | src/LineRendering/LineExporter.cs:147 | Using an index shrinks the unused set, so extension ends. |
| LineExporter.Extend | src/LineRendering/LineExporter.cs:133-152 | The greedy extension keeps a non-empty chain of valid indices. |
| LineExporter.ExtendSteps | src/LineRendering/LineExporter.cs:144-149 | A match appends its index and marks it used before extending again. |
| LineExporter.ExtendStops | src/LineRendering/LineExporter.cs:133-152 | Without a match the extension ends. |
| LineExporter.GrowStep | src/LineRendering/LineExporter.cs:137-149 | One pass of the extension loop appends the matching segment. |
| LineExporter.GrowStop | src/LineRendering/LineExporter.cs:133-152 | A pass without a match ends the polyline. |
| LineExporter.ChainsFrom | src/LineRendering/LineExporter.cs:124-155 | At most one chain per remaining index, each non-empty and made of valid indices. |
| LineExporter.PolylinesOf | src/LineRendering/LineExporter.cs:154 | One polyline per chain. |
| LineExporter.FindNext | src/LineRendering/LineExporter.cs:139-151 | Returns the first unused index whose segment starts close to the point. |
| LineExporter.GrowPolyline | src/LineRendering/LineExporter.cs:128-152 | Returns the greedily extended polyline from segment i and the indices it used. |
| LineExporter.ChainsFromStarts | src/LineRendering/LineExporter.cs:126-155 | An unused index starts the next chain. |
| LineExporter.ChainsFromSkips | src/LineRendering/LineExporter.cs:126 | A used index starts no chain. |
| LineExporter.VisitSegment | src/LineRendering/LineExporter.cs:126-154 | One pass of the outer loop keeps the invariant: done polylines plus the rest give all polylines. |
| LineExporter.ExtractPolylines | src/LineRendering/LineExporter.cs:119-158 | Returns the polylines of the greedy chaining. |
| LineExporter.ExtendGreedy | src/LineRendering/LineExporter.cs:133-152 | Extension yields a greedy chain: each link is the first match, and the chain stops only when nothing fits. |
| LineExporter.ChainsAreGreedy | src/LineRendering/LineExporter.cs:119-158 | Every chain is greedy given the chains before it, and together they use every index. |
| LineExporter.HeadIsLowest | src/LineRendering/LineExporter.cs:124-130 | Each chain starts at the lowest index no earlier chain used. |
| LineExporter.ChainsCover | src/LineRendering/LineExporter.cs:119-158 | Every segment appears in some chain. |
| LineExporter.ChainsDisjoint | src/LineRendering/LineExporter.cs:119-158 | No segment appears twice. |
| LineExporter.PolylinesAreConnected | src/LineRendering/LineExporter.cs:144 | Each segment of a polyline starts close to where the previous one ends. |
| LineExporter.LinksAreFirstMatches | src/LineRendering/LineExporter.cs:139-150 | No lower unused index would have fitted at a link. |
| LineExporter.PolylinesEndWhenNothingFits | src/LineRendering/LineExporter.cs:134-152 | No segment left unused after a polyline starts close to its end. |
| LineExporter.HeadsIncrease | src/LineRendering/LineExporter.cs:124 | Polylines come in increasing order of their first segment. |
| LineExporter.OrderedInputOnePolyline | src/LineRendering/LineExporter.cs:119-158 | Segments already in drawing order form one polyline, unchanged. |
| LineExporter.ChainsSize | src/LineRendering/LineExporter.cs:119-158 | The polylines hold as many segments as the input. |
| LineExporter.ChainsUseAll | src/LineRendering/LineExporter.cs:119-158 | The chains use every index. |
| LineExporter.EndPoints | src/LineRendering/LineExporter.cs:92-95 | One point row per segment. |
| LineExporter.ExportToPolylines | src/LineRendering/LineExporter.cs:77-101 | The rows of the polylines of the greedy chaining. |
| LineExporter.WritePolylines | src/LineRendering/LineExporter.cs:84-99 | Each non-empty polyline's start point, the end point of each segment, then a blank row; empty polylines write nothing. |
| LineExporter.PolylinesRowsSize | src/LineRendering/LineExporter.cs:84-99 | Non-empty polylines take their segments plus two rows each. |
| LineExporter.PolylineFileSize | src/LineRendering/LineExporter.cs:77-101 | The polyline file has one row per input segment plus two per polyline. |

## Left out

- Floating point: every `float` is a Dafny `real`, without rounding or
  overflow. The one NaN that changes control flow is the orthogonal
  renderer's average over a zero-width row or zero-height column (0/0),
  which is modelled with a `Float` datatype. With adaptive spacing it makes
  the next gap NaN and ends the sweep.
- Library maths: `Math.Sqrt`, `Math.Cos` and `Math.Sin` are not computed.
  The flow renderer, the segment length and the total length take a `sqrt`
  function. Lemmas that need its meaning require it to be a true square
  root. The circle renderer takes a function `unit` giving (cos a, sin a)
  for sample i of n. `Math.PI` only enters through that function.
- File output: a `StreamWriter` file is modelled as the sequence of rows
  written to it. The three-decimal `F3` number format, UTF-8 encoding and
  the file path are not modelled.
- LineExporter.PointsAreClose: the optional `tolerance` argument is fixed
  at its default of 0.1, the only value any caller passes.
- `PlotLine.ToString` (src/LineRendering/PlotLine.cs:43-46) is display
  text only and is not modelled.
- Preconditions that stand for non-termination. Without each of the
  following conditions a loop of the source can run for ever, so the model
  requires the condition instead:
  - a positive `LineSpacing`, for every renderer that loops over positions;
  - a non-zero flow `StepSize`;
  - a concentric `RadiusIncrement` that is positive or no smaller than the
    radius limit.

  The source does not always loop on the excluded values, and the model
  leaves out the inputs on which it stops:
  - a `LineSpacing` of 0 on an image of height 0, for the concentric and
    flow renderers, and on a 0 by 0 image for the diagonal renderer;
  - a `LineSpacing` of at most 0 with adaptive orthogonal spacing on an
    image of width 0 (rows) or height 0 (columns), where the NaN gap ends
    the sweep after one pass;
  - a flow `StepSize` of 0 when `MaxLineLength` is at most 0, or when no
    dark seed has a gradient of length at least 0.01 (an all-white image,
    say);
  - a bad `RadiusIncrement` on an image with no grid center.
- OrthogonalHatch.OrthogonalHatchRenderer.GenerateHorizontalLines: the
  `if (row >= size.Height) break;` test can never fire, because the loop
  value is below the height, so it is not modelled as a branch. The same
  holds for the column sweep.
- Helper methods split out of loop bodies. The source writes these loops
  inline; the model runs the inner work through a helper method, with the
  same iterations and effects:
  - `SweepRow` and `SweepColumn` (the orthogonal sweeps);
  - `ScanLeftEdge`, `ScanTopEdge45`, `ScanRightEdge` and `ScanTopEdge135`
    (the diagonal edge loops);
  - `DrawRow` (the circle-center columns);
  - `TraceGrid`, `TraceRow`, `TraceSeed` and `NextPoint` (the flow seeds
    and one trace step);
  - `FindNext`, `GrowPolyline` and `VisitSegment` (the polyline grouping).
- FlowField.FlowFieldRenderer.NextPoint computes the step with the model's
  `Advance` function. `CalculateGradientField` fills each entry with the
  `Sobel` function rather than spelling out the twelve weighted lookups.
  Both functions follow the source's arithmetic term for term.
- FlowField.FlowFieldRenderer.TraceFlowLine: the length added per step is
  the computed segment length. It is proved equal to the absolute step size
  (`StepLength`), and the walk is specified in those units.
- The random-walker renderer (src/LineRendering/RandomWalkerRenderer.cs),
  the user interface (src/MainForm.cs) and the `ILineRenderer` interface
  are not part of this model. The `Name` properties are display strings
  and are not modelled either.
