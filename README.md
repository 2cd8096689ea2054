# Instagram cropper — a Dafny model of its core

The cropper lets a user drop an image, place square crop regions on it,
and drag, resize and reorder them. It scores the image and every crop for
exposure, contrast, sharpness and enlargement, then exports the crops as
numbered PNG slides in a ZIP archive. This project models the logic behind
that and proves what it promises:

- `types.dfy` (`Types`): the crop-square record, partial patches, and
  `Math.min`/`Math.max`/`Math.round` over reals.
- `crop_squares.dfy` (`CropSquares`): the square store. The list
  operations are written as functions. The class `CropStore` holds the
  list and the id counter, and its methods keep the store invariant
  `Valid()`:
  - `order` runs 1..N by position;
  - ids are distinct;
  - every id is below the counter.
  Clamp and rescale are loops with a `changed` flag, proved equal to
  those functions.
- `drag_resize.dfy` (`DragResize`): edge snapping, drag and four-corner
  resize.
  - `ApplySnap` is the source's loop. It is proved equal to a search
    function, `SnapAxis`, which is characterised as the first
    nearest candidate within the threshold.
  - The class `DragResizeState` holds the two transient origin records.
- `image_workspace.dfy` (`ImageWorkspace`): the fit-to-900×600 display
  size, the scale factor, click placement and the snap-target filter.
- `image_analysis.dfy` (`ImageAnalysis`): luma, the 256-bin histogram,
  exposure counts, the histogram quantile and the 4-neighbour Laplacian
  variance.
  - The quantile and Laplacian loops are methods over arrays, proved
    equal to declarative functions.
- `quality_analysis.dfy` (`QualityAnalysis`): the two threshold tiers,
  penalties and score, the ordered reason list, and the pixel loop of
  `analyzeFromImageData`. It also covers the global and per-crop analyses.
- `image_quality.dfy` (`ImageQuality`): the report reducer, and the class
  `QualityOrchestrator` with the two generation tokens. The tokens drop
  results of superseded requests.
- `zip_exporter.dfy` (`ZipExporter`): the export plan and the archive
  name.
  - The plan is a stable sort by `order` and one file `i+1.png` per square
    with its scaled source rectangle.
  - The archive name is the file name with its last extension replaced
    by `.zip`.

Numbers are modelled as unbounded reals, ids as natural numbers, and
pixels as RGB triples of 8-bit channel values.

## Model

| member | source | states |
|---|---|---|
| Types.Min | src/hooks/useCropSquares.ts:56-58 | `Math.min` of two: no larger than either and equal to one of them |
| Types.Max | src/hooks/useCropSquares.ts:56-58 | `Math.max` of two: no smaller than either and equal to one of them |
| Types.Min3 | src/hooks/useCropSquares.ts:56 | `Math.min` of three: no larger than any and equal to one of them |
| Types.Round | src/utils/imageAnalysis.ts:219-221 | `Math.round`: the integer within half of the value, halves rounded up |
| CropSquares.Renumbered | src/hooks/useCropSquares.ts:32 | the same squares in the same places, with `order` reset to position + 1, so the result is ordered 1..N |
| CropSquares.Appended | src/hooks/useCropSquares.ts:10-19 | the old list is a prefix of the result; exactly one square follows it, with the given id and geometry and `order` = old length + 1 |
| CropSquares.AppendedKeepsInvariant | src/hooks/useCropSquares.ts:4-20 | appending with the counter's current value keeps orders 1..N and ids distinct and below the advanced counter; the new id differs from every earlier one |
| CropSquares.Patched | src/hooks/useCropSquares.ts:24 | `{...sq, ...patch}`: id and order kept; each geometric field is taken from the patch when present and kept otherwise |
| CropSquares.Updated | src/hooks/useCropSquares.ts:22-26 | only squares with the given id change, and only as the patch says; ids and orders are kept; an unknown id leaves the list equal |
| CropSquares.WithoutId | src/hooks/useCropSquares.ts:31 | a square is kept exactly when it was there and has another id; the result is never longer; distinct ids stay distinct; a missing id leaves the list equal |
| CropSquares.Removed | src/hooks/useCropSquares.ts:28-34 | no square carries the removed id; the survivors are the filtered squares in their old order, renumbered 1..N |
| CropSquares.KeptFrom | src/hooks/useCropSquares.ts:31 | the positions, from a start on, whose square has another id: each in range with another id, strictly ascending, and none of them missing |
| CropSquares.WithoutIdFrom | src/hooks/useCropSquares.ts:31 | filtering a suffix keeps as many squares as there are kept positions, and the k-th survivor is the square at the k-th kept position |
| CropSquares.WithoutIdKeepsOrder | src/hooks/useCropSquares.ts:31 | the filter keeps the other squares in their original relative order: survivor k is the square at the k-th ascending position with another id |
| CropSquares.RemovedKeepsOrder | src/hooks/useCropSquares.ts:28-34 | after a removal, square k is the k-th square with another id in the old list, unchanged except that its order is k + 1 |
| CropSquares.RemovedLength | src/hooks/useCropSquares.ts:28-34 | removal shortens the list by exactly the number of squares carrying that id |
| CropSquares.OccurrencesOfDistinct | src/hooks/useCropSquares.ts:31 | with distinct ids at most one square carries any id, so a removal takes out at most one square |
| CropSquares.NoOccurrences | src/hooks/useCropSquares.ts:31 | no square carries an id exactly when the count of its occurrences is 0 |
| CropSquares.Relocated | src/hooks/useCropSquares.ts:38-40 | the spliced copy has the same length; the element from `from` sits at `to`, and every other element is read from the position given by `SourceIndex` |
| CropSquares.RelocatedPermutes | src/hooks/useCropSquares.ts:38-40 | the splice-and-reinsert is a permutation of the list |
| CropSquares.SourceIndexInjective | src/hooks/useCropSquares.ts:38-40 | the position map of a move is a bijection of the indices, so no square is lost or duplicated |
| CropSquares.Moved | src/hooks/useCropSquares.ts:36-43 | the moved square ends at index `to`; all squares are renumbered 1..N; distinct ids stay distinct |
| CropSquares.ClampSquare | src/hooks/useCropSquares.ts:56-58 | size at least 1, x and y at least 0; with bounds of at least 1 the square fits inside them; id and order kept; a square already inside is unchanged |
| CropSquares.ClampAll | src/hooks/useCropSquares.ts:52-65 | the list keeps its length and each square is clamped on its own |
| CropSquares.ClampSquareIdempotent | src/hooks/useCropSquares.ts:56-58 | clamping a clamped square changes nothing |
| CropSquares.ClampAllProperties | src/hooks/useCropSquares.ts:49-69 | clamping the list is idempotent; it keeps orders 1..N and distinct ids; with bounds of at least 1 every square ends inside them |
| CropSquares.ClampedList | src/hooks/useCropSquares.ts:52-68 | the loop with the `changed` flag returns the clamped list; it returns the old list exactly when no square moved |
| CropSquares.RescaleSquare | src/hooks/useCropSquares.ts:83-89 | the scaled square is clamped, so size is at least 1 and x, y at least 0; with new bounds of at least 1 it lies inside them; id and order kept |
| CropSquares.Scaled | src/hooks/useCropSquares.ts:75-86 | the square before clamping: x scaled by toW/fromW, y by toH/fromH, the side by whichever of the two ratios is smaller; id and order kept |
| CropSquares.ScaledBy | src/hooks/useCropSquares.ts:83-86 | x and y scale by their own axis factor and the side by the smaller of the two factors; id and order kept |
| CropSquares.RescaleAll | src/hooks/useCropSquares.ts:75-96 | the list keeps its length and each square is rescaled and clamped on its own |
| CropSquares.ScaledUniform | src/hooks/useCropSquares.ts:75-85 | when both axes scale by the same k, every coordinate and the size are multiplied by k |
| CropSquares.RescaleRoundTrip | src/hooks/useCropSquares.ts:71-102 | under a uniform scale, a square inside the bounds that stays at least 1 wide comes back unchanged from a rescale there and back |
| CropSquares.RescaleKeepsInside | src/hooks/useCropSquares.ts:75-89 | for any positive axis factors, a square inside the old bounds is inside the new ones after scaling, and if its scaled side is at least 1 the clamp leaves it as scaled |
| CropSquares.RescaleNonUniformShrinks | src/hooks/useCropSquares.ts:75-89 | with different axis factors the size follows the smaller one each way, so a 50-wide square returns 25 wide |
| CropSquares.RescaledList | src/hooks/useCropSquares.ts:75-98 | the loop with the `changed` flag returns the rescaled list; it returns the old list exactly when no square changed |
| CropSquares.CropStore.constructor | src/hooks/useCropSquares.ts:4-7 | empty list, counter at 1, invariant established |
| CropSquares.CropStore.AddSquare | src/hooks/useCropSquares.ts:9-20 | appends one square carrying the counter's value, which then increases by one; the new id is fresh; the invariant is kept |
| CropSquares.CropStore.UpdateSquare | src/hooks/useCropSquares.ts:22-26 | the list becomes `Updated`; the counter is unchanged; the invariant is kept |
| CropSquares.CropStore.RemoveSquare | src/hooks/useCropSquares.ts:28-34 | the list becomes `Removed`; the counter is unchanged; the invariant is kept |
| CropSquares.CropStore.MoveSquare | src/hooks/useCropSquares.ts:36-43 | the list becomes `Moved`; the counter is unchanged; the invariant is kept |
| CropSquares.CropStore.ClearAll | src/hooks/useCropSquares.ts:45-47 | the list becomes empty; the counter is not reset |
| CropSquares.CropStore.ClampSquaresToBounds | src/hooks/useCropSquares.ts:49-69 | a bound of 0 or less leaves the list as it was; otherwise every square is clamped; the invariant is kept |
| CropSquares.CropStore.RescaleSquaresToBounds | src/hooks/useCropSquares.ts:71-102 | any bound of 0 or less leaves the list as it was; otherwise every square is rescaled; the invariant is kept |
| DragResize.HorizontalEdges | src/hooks/useDragResize.ts:35-36 | the left and right edges of each target, in target order |
| DragResize.VerticalEdges | src/hooks/useDragResize.ts:37-38 | the top and bottom edges of each target, in target order |
| DragResize.AxisCandidates | src/hooks/useDragResize.ts:41-50 | the four alignments against one target in the order they are compared, each with its distance from the current coordinate |
| DragResize.Candidates | src/hooks/useDragResize.ts:34-50 | four candidates per target |
| DragResize.CandidateAt | src/hooks/useDragResize.ts:34-50 | candidate k is alignment k mod 4 against target k div 4 |
| DragResize.BestIsFirstMinimum | src/hooks/useDragResize.ts:26-50 | the strict-`<` search returns its start unless a candidate is strictly nearer; it then returns the first candidate of minimal distance |
| DragResize.SnapAxisUnmoved | src/hooks/useDragResize.ts:65-68 | when no alignment is within 12, the coordinate is returned unchanged |
| DragResize.SnapAxisNearest | src/hooks/useDragResize.ts:47-67 | when some alignment is within 12, the result is the first candidate of minimal distance |
| DragResize.SnapAxisTarget | src/hooks/useDragResize.ts:47-67 | the result is either unchanged or moved at most 12, onto `lo`, `hi`, `lo - size` or `hi - size` of some target |
| DragResize.SnapAxis | src/hooks/useDragResize.ts:23-69 | the snap on one axis: the first nearest of the four alignments per target when within 12, else the coordinate; its properties are the `SnapAxis…` lemmas |
| DragResize.SnapAxisNoTargets | src/hooks/useDragResize.ts:24-68 | with no targets nothing snaps |
| DragResize.SnapXIgnoresVertical | src/hooks/useDragResize.ts:40-50 | the horizontal result depends only on the targets' horizontal edges and sizes |
| DragResize.ApplySnap | src/hooks/useDragResize.ts:23-69 | the loop's results on x and y are the snap search over the horizontal and the vertical edges respectively |
| DragResize.AxisPass | src/hooks/useDragResize.ts:41-50 | the four comparisons for one target extend the search by that target's candidates |
| DragResize.KeepNearer | src/hooks/useDragResize.ts:47 | one comparison: a strictly nearer candidate replaces the best, otherwise nothing changes |
| DragResize.SnapPass | src/hooks/useDragResize.ts:47-50 | four steps against target i equal the search over the candidates up to and including target i |
| DragResize.BestOfTarget | src/hooks/useDragResize.ts:34-50 | the search over one more target is the old best stepped through that target's four candidates |
| DragResize.ClampAxis | src/hooks/useDragResize.ts:100-101 | the coordinate is at least 0; it fits within the maximum when the size does; a coordinate already in range is unchanged |
| DragResize.DragTo | src/hooks/useDragResize.ts:98-107 | the committed position is at least 0 on both axes and fits the bounds on each axis whose size fits, even after snapping; without targets it is the clamped pointer delta |
| DragResize.ResizeTo | src/hooks/useDragResize.ts:139-169 | each corner keeps the opposite corner fixed; an unknown corner keeps the origin; the size is at most the room and at least min(50, room); an origin inside the bounds gives a result inside them |
| DragResize.Room | src/hooks/useDragResize.ts:147-167 | the largest side a corner resize may take: the distance from the fixed corner to the bounds, or to the origin, on the two sides the square grows toward |
| DragResize.DragResizeState.constructor | src/hooks/useDragResize.ts:77-78 | no drag and no resize in progress |
| DragResize.DragResizeState.DragPointerDown | src/hooks/useDragResize.ts:80-93 | records the pointer and the square's corner as the drag origin; the resize record is untouched |
| DragResize.DragResizeState.DragPointerMove | src/hooks/useDragResize.ts:95-113 | no drag in progress gives no patch; otherwise the patch sets x and y to `DragTo` and leaves size alone |
| DragResize.DragResizeState.DragPointerUp | src/hooks/useDragResize.ts:115-117 | clears the drag record only |
| DragResize.DragResizeState.ResizePointerDown | src/hooks/useDragResize.ts:119-134 | records the pointer, geometry and corner as the resize origin; the drag record is untouched |
| DragResize.DragResizeState.ResizePointerMove | src/hooks/useDragResize.ts:136-172 | no resize in progress gives no patch; otherwise the patch sets x, y and size to `ResizeTo` |
| DragResize.DragResizeState.ResizePointerUp | src/hooks/useDragResize.ts:174-176 | clears the resize record only |
| ImageWorkspace.FitScale | src/components/ImageWorkspace.tsx:33-36 | the scale is in (0, 1], so the image is never enlarged; the scaled sides fit 900 × 600; unless it is 1, one side exactly touches its limit |
| ImageWorkspace.Display | src/components/ImageWorkspace.tsx:38-40 | the display size is within 900 × 600 and no larger than the natural size; an image already within 900 × 600 is shown at natural size |
| ImageWorkspace.RoundScaled | src/components/ImageWorkspace.tsx:38-39 | a side shrunk by a factor in (0, 1] rounds to between 0 and the side, and to the side itself at factor 1 |
| ImageWorkspace.SmallImageFitsUnscaled | src/components/ImageWorkspace.tsx:34-36 | an image within 900 × 600 gets scale 1 |
| ImageWorkspace.ScaleFactor | src/components/ImageWorkspace.tsx:38-41 | a positive display width gives a factor of at least 1 that maps display width back to natural width; a zero width gives none |
| ImageWorkspace.SmallImageUnscaled | src/components/ImageWorkspace.tsx:33-41 | an image within 900 × 600 reports a factor of exactly 1 |
| ImageWorkspace.ClickPlacement | src/components/ImageWorkspace.tsx:51-55 | size = max(50, a fifth of the shorter side); x, y at least 0; fits each side it is not larger than; centred on the click away from the edges |
| ImageWorkspace.ClickPlacementInside | src/components/ImageWorkspace.tsx:51-55 | on a canvas at least 50 each way, the new square lies wholly inside it |
| ImageWorkspace.SnapTargets | src/components/ImageWorkspace.tsx:99 | the targets are exactly the squares with another id; the square itself is never among them |
| ImageWorkspace.SnapTargetsOneFewer | src/components/ImageWorkspace.tsx:99 | with distinct ids a square has all the others as targets: one fewer than the list |
| ImageAnalysis.Clamp | src/utils/imageAnalysis.ts:15-16 | the result lies in [min, max] when min ≤ max, and a value already inside is kept |
| ImageAnalysis.LumaRange | src/utils/imageAnalysis.ts:11-13 | luma stays within [0, 255]; a gray pixel has its channel value as luma |
| ImageAnalysis.Luma | src/utils/imageAnalysis.ts:11-13 | BT.709 luma, 0.2126 r + 0.7152 g + 0.0722 b; its range is `LumaRange` |
| ImageAnalysis.Bin | src/utils/imageAnalysis.ts:172 | the bin is in 0..255, and within half a unit of an in-range luma |
| ImageAnalysis.Count | src/utils/imageAnalysis.ts:174-176 | a per-pixel count never exceeds the number of pixels |
| ImageAnalysis.CountAll | src/utils/imageAnalysis.ts:174-176 | a test every pixel passes counts all of them |
| ImageAnalysis.CountNone | src/utils/imageAnalysis.ts:174-176 | a test no pixel passes counts none |
| ImageAnalysis.CountStep | src/utils/imageAnalysis.ts:174-176 | one more pixel adds one to a count exactly when it passes the test |
| ImageAnalysis.Histogram | src/utils/imageAnalysis.ts:157-172 | 256 bins, each between 0 and the pixel count |
| ImageAnalysis.Grayscale | src/utils/imageAnalysis.ts:158-171 | one luma value per pixel, in pixel order |
| ImageAnalysis.QuantileFrom | src/utils/imageAnalysis.ts:65-71 | for a non-empty histogram the scan returns a bin index, never before its starting bin |
| ImageAnalysis.QuantileFromFirst | src/utils/imageAnalysis.ts:65-70 | the scan stops at the first bin whose cumulative count reaches the target |
| ImageAnalysis.QuantileFromNone | src/utils/imageAnalysis.ts:71 | when no bin reaches the target, the scan returns the last bin |
| ImageAnalysis.QuantileIsFirstReaching | src/utils/imageAnalysis.ts:58-72 | the quantile is the smallest bin whose cumulative count reaches total·q, or the last bin when none does |
| ImageAnalysis.Quantile | src/utils/imageAnalysis.ts:58-72 | the histogram quantile search from bin 0; what it returns is `QuantileIsFirstReaching` |
| ImageAnalysis.QuantileFromMonotone | src/utils/imageAnalysis.ts:63-70 | a higher target never gives a lower bin, so p5 ≤ p95 |
| ImageAnalysis.QuantileFromHistogram | src/utils/imageAnalysis.ts:58-72 | the loop over the array returns the declarative quantile |
| ImageAnalysis.LapIndices | src/utils/imageAnalysis.ts:86-96 | the row-major indices the loop reads are in range and give the 4-neighbour Laplacian |
| ImageAnalysis.RowAcc | src/utils/imageAnalysis.ts:89-101 | a row adds one point per interior column |
| ImageAnalysis.GridCount | src/utils/imageAnalysis.ts:85-101 | the interior has (h − 2)(w − 2) points |
| ImageAnalysis.LaplacianVariance | src/utils/imageAnalysis.ts:74-107 | the variance is never negative, and is 0 when a side is below 3 |
| ImageAnalysis.Variance | src/utils/imageAnalysis.ts:104-106 | E[x²] − E[x]², floored at 0, and 0 for no points |
| ImageAnalysis.VarianceOfEqualSquares | src/utils/imageAnalysis.ts:104-106 | values that cancel out and all square to k have variance k |
| ImageAnalysis.ComputeLaplacianVariance | src/utils/imageAnalysis.ts:74-107 | the nested loop over the array returns the declarative Laplacian variance |
| ImageAnalysis.AccumulateGrid | src/utils/imageAnalysis.ts:81-102 | the outer loop's sums are those over all interior points |
| ImageAnalysis.AccumulateRow | src/utils/imageAnalysis.ts:86-101 | the inner loop adds the Laplacian of each interior cell of a row to the running sums |
| ImageAnalysis.FlatLaplacian | src/utils/imageAnalysis.ts:74-107 | a flat image has Laplacian variance 0 |
| ImageAnalysis.CheckerboardLap | src/utils/imageAnalysis.ts:91-96 | on a two-tone checkerboard every interior Laplacian is ±4(a − b) |
| ImageAnalysis.CheckerboardRow | src/utils/imageAnalysis.ts:89-101 | an even stretch of a checkerboard row sums to 0, and each of its squares is 16(a − b)² |
| ImageAnalysis.CheckerboardGrid | src/utils/imageAnalysis.ts:85-102 | over an even-width checkerboard the Laplacians sum to 0 and every square is 16(a − b)² |
| ImageAnalysis.CheckerboardLaplacian | src/utils/imageAnalysis.ts:74-107 | an even-width checkerboard with an interior has Laplacian variance 16(a − b)² |
| ImageAnalysis.GrayscaleCheckerboard | tests/imageAnalysis.test.ts:50-53 | the grayscale plane of a checkerboard of gray pixels is a checkerboard of their tones |
| ImageAnalysis.CheckerboardSharperThanFlat | tests/imageAnalysis.test.ts:49-60 | a checkerboard of two different tones has a larger Laplacian variance than any flat image of the same size |
| ImageAnalysis.FlatGrayscale | tests/imageAnalysis.test.ts:54 | a one-tone image has that tone everywhere in its grayscale plane |
| ImageAnalysis.QuantileOfSpike | src/utils/imageAnalysis.ts:58-72 | every positive quantile of a single-bin histogram is that bin |
| ImageAnalysis.UniformHistogram | src/utils/imageAnalysis.ts:157-172 | the histogram of a one-tone image has all its pixels in that tone's bin |
| QualityAnalysis.CriticalImpliesWarning | src/utils/imageAnalysis.ts:190-204 | each critical threshold tripping implies its warning counterpart trips |
| QualityAnalysis.LevelOf | src/utils/imageAnalysis.ts:190-206 | critical iff some critical threshold trips; warning iff none does and some warning threshold trips; ok iff no warning threshold trips |
| QualityAnalysis.Trips | src/utils/imageAnalysis.ts:190-204 | the six threshold comparisons, with the upscaling one only when resolution data is present |
| QualityAnalysis.Tripped | src/utils/imageAnalysis.ts:190-204 | some check of a tier trips; `LevelOf` relates it to the level |
| QualityAnalysis.ThresholdsFor | src/utils/imageAnalysis.ts:120-126 | critical thresholds for a critical level and warning thresholds otherwise |
| QualityAnalysis.ExposurePenalty | src/utils/imageAnalysis.ts:208-211 | at most 35, and not negative for non-negative percentages |
| QualityAnalysis.ContrastPenalty | src/utils/imageAnalysis.ts:212 | in [0, 20], and 0 exactly when the range reaches 0.3 |
| QualityAnalysis.SharpnessPenalty | src/utils/imageAnalysis.ts:213 | in [0, 30], and 0 exactly when the variance reaches 120 |
| QualityAnalysis.ResolutionPenalty | src/utils/imageAnalysis.ts:214-217 | in [0, 15], and 0 exactly when there is no resolution data or the crop is not enlarged |
| QualityAnalysis.Score | src/utils/imageAnalysis.ts:219-221 | an integer in [0, 100] |
| QualityAnalysis.CleanImageScoresFull | src/utils/imageAnalysis.ts:208-221 | with no clipping, enough contrast and edges, and no enlargement, the score is 100 |
| QualityAnalysis.OkScoresAtLeast74 | src/utils/imageAnalysis.ts:198-221 | every image judged ok scores at least 74 |
| QualityAnalysis.ReasonOfTags | src/utils/imageAnalysis.ts:128-145 | each reason names its check and ranks in that check's place |
| QualityAnalysis.ReasonsUpToSound | src/utils/imageAnalysis.ts:128-145 | every listed reason belongs to a tripped check among those scanned |
| QualityAnalysis.ReasonsUpToComplete | src/utils/imageAnalysis.ts:128-145 | every tripped check among those scanned contributes its reason |
| QualityAnalysis.ReasonsUpToIncreasing | src/utils/imageAnalysis.ts:128-145 | the listed reasons follow the check order strictly |
| QualityAnalysis.ReasonsFor | src/utils/imageAnalysis.ts:109-148 | the reasons are exactly those of the tripped checks, in the order over, clipped, shadows, contrast, sharpness, resolution |
| QualityAnalysis.TrippedHasReason | src/utils/imageAnalysis.ts:109-148 | a tier that trips lists at least one reason, and never the no-issues reason |
| QualityAnalysis.BuildReasons | src/utils/imageAnalysis.ts:109-148 | the pushes under the thresholds of the given level produce `ReasonsFor` at that level's thresholds |
| QualityAnalysis.Assess | src/utils/imageAnalysis.ts:206-233 | the level is `LevelOf`; the score is in [0, 100]; ok gives exactly the no-issues reason, and any other level gives its reasons (at least one) |
| QualityAnalysis.Pct | src/utils/imageAnalysis.ts:181-183 | a count between 0 and the total gives a percentage in [0, 100]; all pixels give 100 and none gives 0 |
| QualityAnalysis.Measure | src/utils/imageAnalysis.ts:155-188 | the percentages lie in [0, 100]; 0 ≤ p5 ≤ p95 ≤ 255; the range is in [0, 1]; the variance is not negative; the resolution data is passed through |
| QualityAnalysis.Analyze | src/utils/imageAnalysis.ts:150-254 | the analysis reports the measured metrics and a score in [0, 100] |
| QualityAnalysis.ScanPixels | src/utils/imageAnalysis.ts:157-179 | the loop fills fresh arrays with the histogram and grayscale plane, and its counters equal the three exposure counts |
| QualityAnalysis.ScanPixel | src/utils/imageAnalysis.ts:166-178 | one iteration extends the histogram and the counts by pixel i and writes its luma at i |
| QualityAnalysis.CountIf | src/utils/imageAnalysis.ts:174-176 | a counter goes up by one exactly when the test holds |
| QualityAnalysis.AddToHistogram | src/utils/imageAnalysis.ts:172 | the increment turns the histogram of the first i pixels into that of the first i + 1 |
| QualityAnalysis.HistogramStep | src/utils/imageAnalysis.ts:172 | one more pixel adds one to its own bin and nothing elsewhere |
| QualityAnalysis.AnalyzeFromImageData | src/utils/imageAnalysis.ts:150-254 | the imperative analysis returns exactly `Analyze` of the pixels |
| QualityAnalysis.GlobalScale | src/utils/imageAnalysis.ts:257 | the scale is in (0, 1], the scaled sides fit 1024, and an image within 1024 is not shrunk |
| QualityAnalysis.GlobalSample | src/utils/imageAnalysis.ts:257-259 | both sample sides are in 1..1024; an image within 1024 is sampled at its natural size |
| QualityAnalysis.GlobalAnalysis | src/utils/imageAnalysis.ts:256-262 | the global analysis has no resolution data, no resolution penalty and no upscaling reason |
| QualityAnalysis.CropResolution | src/utils/imageAnalysis.ts:269-282 | the source side is size·scaleFactor, and ratio × side = 1080 |
| QualityAnalysis.SquareAnalysis | src/utils/imageAnalysis.ts:264-288 | a crop's analysis carries its resolution data |
| QualityAnalysis.UpsampleForcesCritical | src/utils/imageAnalysis.ts:190-196 | enlargement above 1.4 is critical whatever the pixels, and lists the upscaling reason |
| QualityAnalysis.UpsampleCriticalIffSmall | src/utils/imageAnalysis.ts:281-282 | the ratio exceeds 1.4 exactly when the crop's natural side times 1.4 is below 1080 |
| QualityAnalysis.SmallCropCritical | src/utils/imageAnalysis.ts:264-288 | crops narrower than 1080 / 1.4 natural pixels are always critical |
| QualityAnalysis.UniformWhiteCritical | tests/imageAnalysis.test.ts:25-31 | an all-white image is 100% overexposed and critical |
| QualityAnalysis.UniformBlackCritical | tests/imageAnalysis.test.ts:33-39 | an all-black image is 100% underexposed and critical |
| QualityAnalysis.UniformGrayNoContrast | tests/imageAnalysis.test.ts:41-47 | a one-tone image has p5 = p95 = its tone and range 0, so it is critical and in particular not ok |
| QualityAnalysis.CheckerboardSharper | tests/imageAnalysis.test.ts:49-60 | the measured Laplacian variance of a two-tone checkerboard exceeds that of any flat image |
| ImageQuality.Reduce | src/hooks/useImageQuality.ts:24-78 | reset gives the initial report; start actions set analyzing and all others clear it; finishing actions stamp the time; global-start empties both results; each success writes its result; squares-clear empties the map; only the listed actions touch `global` or `bySquareId` |
| ImageQuality.ReducePreservesStamped | src/hooks/useImageQuality.ts:24-78 | a report without a timestamp holds no results, and every action keeps that so |
| ImageQuality.ReduceAllStamped | src/hooks/useImageQuality.ts:24-78 | any run of actions keeps that property |
| ImageQuality.FromEntries | src/hooks/useImageQuality.ts:143-153 | `Object.fromEntries` over the (id, analysis) pairs, entry by entry; its keys and last-wins rule are the two lemmas below |
| ImageQuality.FromEntriesKeys | src/hooks/useImageQuality.ts:145-153 | the map has one key per square id and no other |
| ImageQuality.FromEntriesLastWins | src/hooks/useImageQuality.ts:153 | where ids repeat, the later square's analysis is the one kept |
| ImageQuality.QualityOrchestrator.constructor | src/hooks/useImageQuality.ts:85-87 | the initial report and both counters at 0 |
| ImageQuality.QualityOrchestrator.Dispatch | src/hooks/useImageQuality.ts:85 | the report becomes the reducer's result; the counters are untouched |
| ImageQuality.QualityOrchestrator.ClearImage | src/hooks/useImageQuality.ts:99-107 | both counters go up by one and the report is reset |
| ImageQuality.QualityOrchestrator.StartGlobal | src/hooks/useImageQuality.ts:109-110 | the global counter goes up by one and its value is the request's token; the report receives global-start |
| ImageQuality.QualityOrchestrator.CompleteGlobal | src/hooks/useImageQuality.ts:114-117 | the result reaches the report only when its token is the current one; the counters are unchanged |
| ImageQuality.QualityOrchestrator.FailGlobal | src/hooks/useImageQuality.ts:118-121 | the failure reaches the report only when its token is the current one |
| ImageQuality.QualityOrchestrator.SquaresChanged | src/hooks/useImageQuality.ts:126-140 | without an image nothing happens; an empty list bumps the counter and clears at once, with no request; otherwise squares-start and a new token |
| ImageQuality.QualityOrchestrator.CompleteSquares | src/hooks/useImageQuality.ts:143-155 | with one analysis per square, the report takes the map `FromEntries` builds, and only when the token is the current one; otherwise nothing changes |
| ImageQuality.QualityOrchestrator.FailSquares | src/hooks/useImageQuality.ts:156-159 | the failure reaches the report only when its token is the current one |
| ImageQuality.SupersededGlobalDropped | src/hooks/useImageQuality.ts:109-121 | after a second request, the first request's result or failure leaves the report as the second start left it |
| ImageQuality.SupersededSquaresDropped | src/hooks/useImageQuality.ts:99-159 | results of an older squares request, and of any request once the image is gone, never reach the report |
| ImageQuality.StaleGlobalDropped | src/hooks/useImageQuality.ts:109-121 | for any token below the current counter and any payload, a result or failure leaves the report and both counters unchanged |
| ImageQuality.StaleSquaresDropped | src/hooks/useImageQuality.ts:140-157 | for any token below the current counter and any payload, a result or failure leaves the report and both counters unchanged |
| ZipExporter.Insert | src/utils/zipExporter.ts:13 | insertion adds exactly one element and keeps the others |
| ZipExporter.SortByOrder | src/utils/zipExporter.ts:13 | the sorted copy is a permutation of the input |
| ZipExporter.InsertSorted | src/utils/zipExporter.ts:13 | inserting into a list sorted by order keeps it sorted |
| ZipExporter.SortByOrderSorted | src/utils/zipExporter.ts:13 | the result is sorted by `order` and is a permutation of the input |
| ZipExporter.SortByOrderStable | src/utils/zipExporter.ts:13 | squares sharing an `order` keep their relative order, as `Array.prototype.sort` guarantees |
| ZipExporter.InsertStable | src/utils/zipExporter.ts:13 | inserting puts the new square after those of equal order |
| ZipExporter.SortBySortedIdentity | src/utils/zipExporter.ts:13 | a sorted list comes back unchanged |
| ZipExporter.StoreListExportsAsIs | src/utils/zipExporter.ts:13 | the store's list, numbered by position, is exported in its own order |
| ZipExporter.NatToString | src/utils/zipExporter.ts:23 | at least one decimal digit, and two or more exactly from 10 on |
| ZipExporter.NatToStringInjective | src/utils/zipExporter.ts:23 | different numbers are written differently |
| ZipExporter.FileName | src/utils/zipExporter.ts:23 | the name is decimal digits followed by `.png` |
| ZipExporter.FileNameExamples | src/utils/zipExporter.ts:23 | slide 1 is `1.png` and slide 12 is `12.png` |
| ZipExporter.FileNameInjective | src/utils/zipExporter.ts:23 | different slides get different file names |
| ZipExporter.SlideFile | src/utils/zipExporter.ts:17-23 | the file for place i: named `FileName(i + 1)`, cut at the square scaled by the factor |
| ZipExporter.ExportPlan | src/utils/zipExporter.ts:13-24 | one file per square; file i is named `i+1.png` and holds the i-th square of the sorted copy, scaled by the factor |
| ZipExporter.PlanNamesDistinct | src/utils/zipExporter.ts:15-24 | no two files of the plan share a name, so none overwrites another |
| ZipExporter.PlanOfStoreList | src/utils/zipExporter.ts:13-23 | for the store's list, file i is the square at i, named after its `order`, with source side size·factor |
| ZipExporter.LastDot | src/utils/zipExporter.ts:27 | the position of the last `.`, or none when there is no dot |
| ZipExporter.BaseName | src/utils/zipExporter.ts:27 | where `/\.[^.]+$/` matches, the name is cut there; where it does not, the name is kept whole |
| ZipExporter.LastDotIsExtension | src/utils/zipExporter.ts:27 | the pattern can only match at the last dot |
| ZipExporter.BaseNameCases | src/utils/zipExporter.ts:27 | a name with no dot, or ending in one, is kept; otherwise a strictly shorter prefix ending before a dot is returned |
| ZipExporter.ArchiveName | src/utils/zipExporter.ts:27-28 | the name ends in `.zip` and what precedes it is a prefix of the original name |
| ZipExporter.ArchiveNameExamples | src/utils/zipExporter.ts:27-28 | `photo.jpg` gives `photo.zip`, `a.b.c` gives `a.b.zip`, and `photo` and `photo.` keep the whole name before `.zip` |

## Left out

- Rendering, styling, modals and event wiring are not modelled: the JSX of every component, `App.tsx`, `setPointerCapture`, `stopPropagation` and bounding-box lookups. The handlers are given pointer coordinates directly.
- Canvas and pixel I/O are not modelled: `createCanvas`, `sampleImageData`, `drawImage`, `getImageData` and `cropRegion`. The analyses take the sampled pixels as a sequence, and the export plan stops at the source rectangle handed to `cropRegion`. `src/utils/cropEngine.ts` is not part of this model.
- The RGBA byte array is modelled as a sequence of RGB pixels, so the alpha byte and the stride of 4 are not represented.
- Async work and timers are not modelled: the debounce `setTimeout`/`clearTimeout`, `Promise.all` and the async closures. Completions and failures are events carrying their token, so any interleaving of them can be expressed.
- `Date.now()` is a parameter `now`. For the start actions, which do not read the clock, the value is irrelevant.
- Floating point is not modelled. Numbers are exact reals, `Math.round` is floor(v + 1/2), and the `Float32Array`/`Uint8ClampedArray` storage rounding is ignored.
- Reason strings are tags carrying their number. The `toFixed` formatting is not modelled.
- JSZip, `saveAs` and `generateAsync` are foreign calls and are left out. `ExportPlan` returns the list of files the archive receives.
- Ids are natural numbers. `String(nextId++)` is injective, so rendering them as strings is omitted. The module-level counter is a field of `CropStore`.
- `CropSquares.CropStore.MoveSquare`: requires both indices to be in range. The callers guard them. An out-of-range `splice` (which would insert `undefined`) is not modelled.
- `QualityAnalysis.AnalyzeFromImageData`: requires `width, height >= 1` and exactly `width·height` pixels. This is what `ImageData` guarantees and the samplers produce, since both sides are at least 1 or 256.
- `QualityAnalysis.CropResolution`: requires a crop of positive natural size. A zero-size crop gives `Infinity` in the source, which has no real counterpart.
- `ImageWorkspace.ScaleFactor`: a display width of 0 gives `None` where the source divides by zero. The workspace renders nothing in that case (`ImageWorkspace.tsx:62`).
- `ImageWorkspace.FitScale`: a zero natural side, whose ratio is `Infinity` in the source, is skipped. This gives the same minimum.
- `ImageAnalysis.CheckerboardLaplacian`: the exact variance is proved for checkerboards of even width at least 4 and height at least 3. That covers the 64 × 64 test images. Odd widths are not covered.
- `QualityAnalysis.BuildReasons`: takes the metrics record rather than six loose arguments. A missing resolution is `None`.
- `rescaleSquaresToBounds` is not proportional when the axes scale differently: it scales x and y by their own axis factors but the size by the smaller of the two, so a rescale there and back restores a square only when both axes scale alike. `CropSquares.RescaleRoundTrip` proves the uniform case and `CropSquares.RescaleNonUniformShrinks` shows the other.
- Undo/redo, gesture batching, multi-selection and auto-fill have no code in the repository and are not modelled.
- The Toolbar count clamp, the DropZone MIME filter, the SquareList move guards and the preview source size are UI guards and are left out.
- `clampSquaresToBounds` and `rescaleSquaresToBounds` return the old list object when nothing changed. The model returns an equal value; reference identity, which decides React's re-render, has no counterpart.
- `exportAsZip` sorts a copy, so the caller's list is not reordered. Lists are values here, so this holds by construction and is not stated separately.
