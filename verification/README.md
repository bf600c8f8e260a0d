# funnel — a Dafny model of the funnel-chart core

`funnel` is a small command-line program that draws a funnel chart: given one to ten
percentages, ordered from the widest (top) to the narrowest (bottom) row, it stacks one
trapezoid per segment into a `width` by `height` image, colours the trapezoids from a fixed
ten-colour blue palette, and writes the result as a PNG file.

This project models the three pieces of pure logic inside `funnel.go` and proves their
properties:

- **Palette** (`palette.dfy`): the ten-entry `colorpal` constant as `RGBA` values and
  `getColorPal`, the hand-tuned table that picks the colours for a given number of segments.
  The table is kept as palette positions (`ColorIndices`) and the colours are looked up from it.
- **Entries** (`entries.dfy`): `parseFunnel`, which turns the command-line tokens into
  percentages or reports the first problem: a token that is not a number, a number outside
  [0, 100], no tokens at all, or more tokens than palette colours. The number parser
  (`strconv.ParseFloat`) is a parameter of type `string -> Option<real>`.
- **Geometry** (`geometry.dfy`): the segment computation inside `main`, lifted out as the pure
  function `Plan` from (percentages, width, height) to the list of drawn segments. Each
  segment records its top and bottom y, its top and bottom half-width and the palette position
  of its colour. `DrawSegments` walks the entries exactly as the source loop does (leaving the
  loop at a trailing zero, falling back to a rectangle for the last row) and is proved to
  produce `Plan`. `Outline` is the closed five-point path handed to the drawing library.
- **Wrappers** (`wrappers.dfy`): `Option` and `Result`.

All coordinates are `real`. Width and height are Go's 64-bit `int` flags (funnel.go:103-104),
modelled as unbounded `int`; the core does no integer arithmetic on them that could overflow,
it only converts them to `float64` (which rounds above 2^53; see below).

## Model

| member | source | states |
|---|---|---|
| Palette.PaletteIsGradient | funnel.go:34-45 | the palette has ten colours, every channel grows strictly from one colour to any later one (dark to light), and all are fully opaque |
| Palette.ColorIndices | funnel.go:47-68 | for 1 to 9 segments exactly that many palette positions are chosen, for every other count (0, 10, negative, larger) all ten; positions are in range and strictly increasing; from two segments on they start at the darkest and end at the lightest; one segment gets only the lightest |
| Palette.GetColorPal | funnel.go:47-68 | the chosen colours number n for 1 to 9 and are the whole palette otherwise; each is a palette colour, each is lighter than the one before, from two on they run from the darkest to the lightest, a single segment is the lightest |
| Palette.ColorsFollowIndices | funnel.go:49-68 | the colours chosen for any count are the palette entries at the table's positions, one colour per table position |
| Palette.ChosenColorsOrdered | funnel.go:49-66 | any two chosen colours keep palette order: the earlier one has the smaller palette position, is darker, and differs from the later one |
| Entries.ParseEntry | funnel.go:75-82 | a token is accepted exactly when it parses to a number in [0, 100], and then yields that number; an unparsable token gives the not-a-number error, a parsed number outside the range the out-of-range error |
| Entries.ParseEntries | funnel.go:72-85 | all tokens are accepted exactly when each is; then one value per token, in token order, each the token's number and in range; otherwise the error is the one of the first refused token |
| Entries.ParseFunnel | funnel.go:71-97 | success exactly when there are 1 to 10 tokens and each is accepted; then the result is a valid funnel with one value per token in order; no tokens gives the empty error; more than ten acceptable tokens give the too-many error |
| Entries.EntryErrorTakesPrecedence | funnel.go:74-93 | whatever the number of tokens, the first refused token's own error is the result, never the empty or too-many error |
| Entries.BadEntryFails | funnel.go:74-93 | one refused token anywhere makes validation fail with a per-entry error, so eleven tokens with a bad one report the bad token, not the count |
| Entries.ValidEntriesRoundTrip | funnel.go:71-97 | tokens that read as the numbers of a valid funnel come back as exactly that funnel, same values, same order |
| Geometry.SkipLast | funnel.go:117-120 | the trailing-zero test holds exactly when the last entry's row has zero half-width on a canvas of every width, i.e. the last row is the apex point |
| Geometry.DrawnCount | funnel.go:117-132 | the drawn count is one less than the number of entries exactly when the last entry is zero, and equal to it otherwise |
| Geometry.SegmentAt | funnel.go:140-148 | drawn segment j is one band of height height/n, its top half-width is entry j times width/200, its bottom half-width that of entry j+1 (or its own top when there is no next entry), and its colour position lies inside the palette |
| Geometry.Plan | funnel.go:117-158 | one segment per drawn entry: as many segments as entries, or one fewer with the last entry zero |
| Geometry.PlanWidths | funnel.go:142-147 | a segment's top half-width is its entry times width/200, its bottom half-width equals the next segment's top one, the last segment is a rectangle unless the last entry is zero, in which case it tapers to a point |
| Geometry.PlanTilesHeight | funnel.go:124-141 | the segments tile the canvas height: the first starts at 0, each ends where the next starts, all are height/n high, and the last ends at height |
| Geometry.PlanColors | funnel.go:129-149 | the colour list for the drawn count has at least one colour per drawn segment, and segment j is filled with its j-th colour |
| Geometry.ColorInBoundsIff | funnel.go:129-148 | indexing the colour list by every drawn segment stays in bounds exactly when at most ten segments are drawn |
| Geometry.ValidFunnelDrawable | funnel.go:87-93 | a funnel that passed validation can be planned, and its colour list is long enough for every drawn segment |
| Geometry.ColorsLightenDownward | funnel.go:129-149 | each drawn segment has a later palette position and a strictly lighter colour than the segment above it |
| Geometry.DrawSegments | funnel.go:117-158 | the source's drawing loop, with its early exit at a trailing zero and its bottom-edge fallback, yields exactly the planned segments |
| Geometry.SegmentsInCanvas | funnel.go:140-146 | for a valid funnel on a canvas of non-negative size, each band lies within [0, height] with its top above its bottom, and each half-width within [0, width/2] |
| Geometry.Outline | funnel.go:150-154 | the traced path has five points and closes on itself; its top points share the top y and its bottom points the bottom y; each pair is centred on width/2 and as wide as twice the half-width |
| Geometry.OutlinesInCanvas | funnel.go:150-154 | every outline point of every segment of a valid funnel lies on the canvas, and each outline is its own mirror image about the vertical centre line |
| Geometry.ExampleFunnel | funnel.go:117-146 | entries 100 70 40 10 0 on a 400 by 600 canvas: trailing zero detected, four segments, the first from y 0 to 150 with half-widths 200 and 140, the last from 450 to 600 tapering to 0 in the lightest colour |
| Geometry.LoneZeroDrawsNothing | funnel.go:124-138 | a single zero entry draws no segment at all |

## Left out

- Command-line flags, usage text and `log.Fatal` exits (funnel.go:99-115): process plumbing; the model starts from the token list and the two integers.
- Rasterisation through the draw2d library (funnel.go:122-123, 148-157): a foreign library; the model stops at the outline points and colour handed to it, and does not model the order in which overlapping edges are painted.
- PNG encoding and creating, writing and closing the output file (funnel.go:165-178): I/O.
- The internals of `strconv.ParseFloat`: it is the `FloatParser` parameter, any function from token to optional number.
- IEEE-754 behaviour that `real` cannot represent: a NaN entry passes the range test at funnel.go:80 because both comparisons are false; `strconv.ParseFloat` accepts "Inf" and "-Inf", whose ±Inf funnel.go:80 then refuses with the out-of-range error, but the `real`-valued parser cannot return them; float64 rounding of the products and quotients, and of `float64(width)` and `float64(height)` above 2^53, is not modelled.
- The single entry `0` makes funnel.go:126 divide by zero (±Inf in Go, or NaN when height is 0) before the loop leaves at once; the model does not compute that quotient and plans zero segments, which is what is drawn.
- Error message text, including the `%d` verb applied to a float at funnel.go:81: the model keeps only which error occurs and the offending token or value.
- Geometry.SegmentsInCanvas: covers only non-negative width and height; the source accepts negative flag values and the model plans them, but the bounds are not claimed for them.
- Geometry.OutlinesInCanvas: same restriction to a non-negative canvas size.

Validation order follows `funnel.go`: the count checks run only after every token has been
read and range-checked, so a list that is both too long and contains a bad token reports the
bad token.
