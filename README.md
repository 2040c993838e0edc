# Soil-map XYZ tiling, modelled in Dafny

The four scripts of digital-soil-mapping turn a single-band soil-property
raster (pH, buffer pH, organic matter, CEC) into a pyramid of 256 x 256 PNG
tiles on the Web-Mercator XYZ grid (the WebMercatorQuad tile matrix set,
EPSG:3857 metres), plus a colour-bar legend. This project models the logic
between the library calls and proves what it guarantees:

- `numbers.dfy` (module `Numbers`): Python's `int()` on a float (truncation
  toward zero), `math.ceil`, and `str()` of an integer with its inverse.
- `web_mercator.dfy` (module `WebMercator`): `mercator_tile_bounds`, and
  `get_tile_range` in both forms: unclamped (three scripts) and clamped to
  `[0, 2^z - 1]` (the per-property loop script).
- `tile_rendering.dfy` (module `TileRendering`): the per-tile sample buffer:
  empty-tile test, clip at a ceiling, min-max normalisation into [0, 1]
  (with numpy's division by zero), colour lookup, and the transparency
  masks written in place into the RGBA buffer (an `array`).
- `pyramid.dfy` (module `Pyramid`): the z = 9..18 / x / y driver as nested
  `while` loops, proved equal to a recursive enumeration of the visits and
  of what each visit writes (local file, image, upload path). The four
  scripts are four pipeline configurations: `LoopPipeline`,
  `CommitPipeline`, and `PhPipeline` for tile_generation.py and
  tile_generation_with_batch_commit.py. Those two share their tile logic and
  differ in their colormap (RdBu and viridis) and their tiles directory.
- `classification.dfy` (module `Classification`): mean/standard-deviation bin
  edges and the fixed edge and colour lists.
- `legend.dfy` (module `Legend`): `np.linspace` ticks and their labels.

Coordinates are exact `real`s; tile indices are `int`s. The raster read and
the matplotlib colour lookups are function parameters.

Behaviour of the scripts that is easy to misread:
- Tile ranges use `int()`, which truncates toward zero; it is not a floor.
  The two differ for negative scaled coordinates, in the clamped form too,
  because the loop script truncates first and clamps afterwards. A box lying
  0.9 to 0.1 tiles west of the square gets columns [0, 0], so column 0 is
  visited although the box does not touch it; a box lying 3.5 to 2.5 tiles
  west gets the empty range [0, -2].
- Only the loop script clamps tile ranges. The other three scripts do not
  (see Findings).
- Only the loop script skips tiles whose samples are all no-data. The other
  three write every tile in range.
- The statistical scheme yields `step` edges: `range(ceil(-step/2), ceil(step/2))`
  has `step` members.
- In tile_generation_with_commit.py the fixed edges feed a `BoundaryNorm`
  that is overwritten before any tile is coloured, so the edges are unused.
  The colours are used: they build the `ListedColormap` that colours every
  tile (the `colormap` parameter of `CommitPipeline`), applied to min-max
  normalisation against 335. The comment beside the edge list
  says "8 classes → 9 edges", but the list holds 8 edges for 7 colours.

## Model

| member | source | states |
|---|---|---|
| Numbers.Trunc | scripts/tile_generation.py:41-44 | `int()` of a float rounds toward zero: for r ≥ 0 the result is the floor, for r < 0 it lies in (r - 1, r] rounded up |
| Numbers.TruncVersusFloor | scripts/tile_generation_with_commit.py:81-84 | truncation and floor differ exactly on negative non-integers |
| Numbers.Ceil | scripts/loop_tile_generation_with_commit.py:75 | `math.ceil(r)` is the least integer ≥ r |
| Numbers.IntToString | scripts/loop_tile_generation_with_commit.py:193 | `str(n)` is non-empty, starts with '-' exactly for negative n and is otherwise all decimal digits, with no leading zero (only 0 itself starts with '0') |
| Numbers.IntRoundTrip | scripts/loop_tile_generation_with_commit.py:193 | parsing `str(n)` gives back n |
| Numbers.IntToStringInjective | scripts/tile_generation.py:94-96 | `str(a) == str(b)` exactly when a == b |
| WebMercator.Pow2 | scripts/tile_generation.py:40 | `2 ** z` tiles per axis is at least 1 |
| WebMercator.TileSpan | scripts/tile_generation.py:30-32 | the tile side is positive and 2^z sides make up the whole square |
| WebMercator.TileBounds | scripts/tile_generation.py:30-37 | a tile's box is a square whose width and height are the tile side |
| WebMercator.TileBoundsFromCorner | scripts/loop_tile_generation_with_commit.py:97-107 | the loop script's `maxx = minx + tile_size` gives the same box as the `(x + 1) * tile_size` form |
| WebMercator.NeighboursShareEdges | scripts/tile_generation_with_commit.py:70-77 | the right edge of (x, y) is the left edge of (x+1, y), the bottom of (x, y) is the top of (x, y+1), and rows and columns line up |
| WebMercator.GridCorners | scripts/loop_tile_generation_with_commit.py:97-107 | tile (0, 0) starts at (MIN, MAX) and tile (2^z-1, 2^z-1) ends at (MAX, MIN) |
| WebMercator.ColumnOf | scripts/tile_generation_with_batch_commit.py:34-41 | every easting in the square lies in a valid column's tiles |
| WebMercator.RowOf | scripts/tile_generation_with_batch_commit.py:34-41 | every northing in the square lies in a valid row's tiles, top edge included, bottom excluded |
| WebMercator.ColumnUnique | scripts/tile_generation_with_batch_commit.py:34-41 | the column holding an easting is unique, so columns partition the square |
| WebMercator.RowUnique | scripts/tile_generation_with_batch_commit.py:34-41 | the row holding a northing is unique, so rows partition the square |
| WebMercator.ClampedTileRangeOf | scripts/loop_tile_generation_with_commit.py:110-124 | whatever the bounds, the clamped range has x_min, y_min ≥ 0 and x_max, y_max ≤ 2^z - 1 |
| WebMercator.ClampAgreesInsideGrid | scripts/loop_tile_generation_with_commit.py:119-122 | clamping changes nothing when the unclamped indices are already valid |
| WebMercator.ClampedWestOfSquare | scripts/loop_tile_generation_with_commit.py:110-124 | the clamped range truncates before clamping: a box 0.9 to 0.1 tiles west of the square gets columns [0, 0], one 3.5 to 2.5 tiles west gets [0, -2] |
| WebMercator.TileCoordinateMonotone | scripts/tile_generation.py:40-43 | the scaled coordinate `d / WEBMERC_SIZE * n` keeps the order of the distances |
| WebMercator.TileRangeOf | scripts/tile_generation.py:39-44 | the unclamped range of a box whose edges are in order has x_min ≤ x_max and y_min ≤ y_max |
| WebMercator.RangeStartsAtCornerTile | scripts/tile_generation.py:39-45 | x_min and y_min are the column and row of the tile holding the box's north-west corner |
| WebMercator.UnclampedRoundTrip | scripts/tile_generation.py:30-45 | the unclamped range of tile (x, y)'s own box is exactly [x, x+1] x [y, y+1], for every integer x, y |
| WebMercator.ClampedRoundTrip | scripts/loop_tile_generation_with_commit.py:97-124 | for a valid tile the clamped range of its box starts at (x, y) and ends at x+1 / y+1, or at x / y on the east / south edge |
| WebMercator.UnclampedInsideSquare | scripts/tile_generation_with_commit.py:79-85 | for a box inside the square every unclamped index lies in [0, 2^z] |
| WebMercator.UnclampedEdgeIndex | scripts/tile_generation_with_commit.py:79-85 | a box reaching the east edge gets x_max = 2^z, and one reaching the south edge gets y_max = 2^z |
| WebMercator.EdgeDistanceIndex | scripts/tile_generation_with_commit.py:82-84 | a distance of the whole square scales to index exactly 2^z |
| WebMercator.UnclampedLeavesGrid | scripts/tile_generation_with_batch_commit.py:43-49 | a box reaching beyond the square gets indices -2 and 2^z + 1, outside [0, 2^z - 1] |
| WebMercator.IndexBeyondSquare | scripts/tile_generation_with_batch_commit.py:45-48 | a distance of the square plus k ≥ 0 tile sides gets index 2^z + int(k) |
| WebMercator.IndexOfSpans | scripts/tile_generation_with_batch_commit.py:45-48 | a distance of k tile sides, of either sign, gets index int(k), truncated toward zero |
| TileRendering.Clip | scripts/loop_tile_generation_with_commit.py:152 | the clipped value is at most the ceiling, equals the sample exactly when the sample is at most the ceiling, and is the ceiling above it |
| TileRendering.UnitClip | scripts/tile_generation_with_commit.py:112 | the result lies in [0, 1], values already in [0, 1] are kept, negatives become 0 and values above 1 become 1 |
| TileRendering.Normalise | scripts/tile_generation_with_commit.py:110-112 | a finite result lies in [0, 1]; the result is NaN exactly when data_min equals the ceiling and the sample reaches it |
| TileRendering.NormaliseMonotone | scripts/tile_generation_with_batch_commit.py:76-78 | normalisation is non-decreasing in the sample value |
| TileRendering.NormaliseSaturates | scripts/tile_generation_with_commit.py:110-112 | when data_min is below the ceiling, samples at or above the ceiling map to 1 and samples at or below data_min map to 0 |
| TileRendering.Colour | scripts/loop_tile_generation_with_commit.py:152-154 | a binned colour of a value at or above the ceiling is the class of the ceiling; a min-max colour of a value at or above the ceiling is the colormap at 1, and at or below data_min the colormap at 0, when data_min is below the ceiling |
| TileRendering.EmptyTileExactly | scripts/loop_tile_generation_with_commit.py:148-149 | appending a sample keeps a tile empty exactly when the tile was empty and the sample equals the no-data value (the `np.all(tile_array == nodata)` reduction, element by element); with no no-data value a non-empty buffer is never empty |
| TileRendering.IsEmptyTile | scripts/loop_tile_generation_with_commit.py:148 | a non-empty tile counts as empty only when there is a no-data value and its first sample equals it |
| TileRendering.EmptyTileIsBlank | scripts/loop_tile_generation_with_commit.py:148-158 | a tile the loop script skips would have rendered fully transparent, so skipping loses no visible pixel |
| TileRendering.Hidden | scripts/tile_generation.py:86-89 | without a hiding threshold a sample is hidden exactly when it equals the no-data value |
| TileRendering.Pixel | scripts/tile_generation.py:83-89 | a hidden sample gives a transparent pixel, and a pixel that is not transparent has its sample's colour |
| TileRendering.Render | scripts/tile_generation.py:77-89 | the image has one pixel per sample |
| TileRendering.ClearWhere | scripts/loop_tile_generation_with_commit.py:156-158 | masked pixels become [0,0,0,0] and every other pixel is unchanged |
| TileRendering.RenderTile | scripts/tile_generation.py:77-89 | the image built in place by colouring and then applying the masks equals the pixel-wise rendering |
| TileRendering.RenderMasks | scripts/tile_generation.py:86-89 | a pixel whose raw sample is no-data, or at most the hiding threshold, is transparent; every other pixel has its sample's colour |
| Pyramid.TilePathShape | scripts/tile_generation.py:94-96 | a tile's path lies one separator below its root and names a `.png` file |
| Pyramid.ColumnVisits | scripts/tile_generation.py:62 | a y-loop makes y_max - y_min + 1 visits (none when the range is empty), all in its column and zoom |
| Pyramid.LevelVisits | scripts/tile_generation.py:61-62 | an x-loop makes (columns × rows) visits, all at its zoom |
| Pyramid.Visits | scripts/loop_tile_generation_with_commit.py:134-139 | every visit's zoom lies in the zoom levels looped over |
| Pyramid.Skipped | scripts/loop_tile_generation_with_commit.py:148-149 | only the loop script skips, and only a tile that would render fully transparent |
| Pyramid.RemotePath | scripts/tile_generation_with_commit.py:130-131 | a tile has an upload path exactly when the script uploads |
| Pyramid.OutputOfVisit | scripts/loop_tile_generation_with_commit.py:139-171 | a visit writes its own tile, one pixel per sample read, to a `.png` under the tiles directory, and has an upload path exactly when the script uploads |
| Pyramid.Produce | scripts/loop_tile_generation_with_commit.py:134-171 | a run writes at most one tile per visit, and exactly one per visit when there is no skip |
| Pyramid.GenerateTiles | scripts/loop_tile_generation_with_commit.py:134-171 | the z-loop writes exactly the outputs of the visits of zoom levels 9 to 18, in order |
| Pyramid.RenderLevel | scripts/tile_generation_with_commit.py:97-131 | the x-loop writes exactly the outputs of the level's columns, in order |
| Pyramid.RenderColumn | scripts/tile_generation_with_batch_commit.py:64-92 | the y-loop writes exactly the outputs of the column's rows, in order |
| Pyramid.RenderVisit | scripts/loop_tile_generation_with_commit.py:139-171 | one visit writes nothing when the tile is skipped, and otherwise its rendered image to its local and upload paths |
| Pyramid.InColumnVisits | scripts/tile_generation.py:62 | a y-loop visits exactly the rows y_min..y_max of its column |
| Pyramid.InLevelVisits | scripts/tile_generation.py:61-62 | an x-loop visits exactly the tiles of the level's range |
| Pyramid.InVisits | scripts/loop_tile_generation_with_commit.py:134-139 | a tile is visited exactly when its zoom is 9..18 and it lies in that level's range |
| Pyramid.VisitsIncreasing | scripts/loop_tile_generation_with_commit.py:134-139 | tiles are visited in strictly increasing (z, x, y) order, so none twice |
| Pyramid.ClampedVisitsInGrid | scripts/loop_tile_generation_with_commit.py:110-139 | with clamped ranges every visited tile has 0 ≤ x, y < 2^z |
| Pyramid.InProduce | scripts/loop_tile_generation_with_commit.py:148-171 | an output is written exactly for a visited tile that is not skipped, and holds that tile's own image and paths |
| Pyramid.ProduceLast | scripts/tile_generation.py:57-96 | without the skip, the last visit writes the last tile |
| Pyramid.ProduceAt | scripts/tile_generation.py:57-96 | without the skip, the i-th tile written is the i-th visit's |
| Pyramid.ProduceWithoutSkipping | scripts/tile_generation.py:57-96 | without the empty-tile skip, each visit writes exactly one tile, in visiting order |
| Pyramid.ProduceIncreasing | scripts/tile_generation_with_batch_commit.py:60-92 | written tiles keep the strictly increasing visiting order |
| Pyramid.RelativeTilePathInjective | scripts/tile_generation.py:94-96 | `z/x/y.png` determines the tile |
| Pyramid.TilePathInjective | scripts/tile_generation.py:94-96 | under one root, `root/z/x/y.png` determines the tile: distinct tiles get distinct paths |
| Pyramid.OutputPathsDiffer | scripts/tile_generation_with_commit.py:124-131 | distinct tiles get distinct local files and, where uploaded, distinct repository paths |
| Pyramid.DistinctPaths | scripts/loop_tile_generation_with_commit.py:164-171 | a run never writes, or uploads, two tiles to the same path |
| Pyramid.GeneratedTiles | scripts/loop_tile_generation_with_commit.py:134-149 | a run writes a tile exactly when its zoom is 9..18, it is in the level's range and it is not skipped |
| Pyramid.LoopPipeline | scripts/loop_tile_generation_with_commit.py:81-171 | the loop script clamps, skips empty tiles, uploads, and gives every value at or above 335 the class of 335 |
| Pyramid.CommitPipeline | scripts/tile_generation_with_commit.py:40-131 | the uploading PH script does not clamp or skip, uploads, and colours every value at or above 335 as the colormap at 1 when data_min is below 335 |
| Pyramid.PhPipeline | scripts/tile_generation.py:14-96 | tile_generation.py does not clamp, skip or upload, and every sample at or below 4 gives a transparent pixel |
| Pyramid.LoopScriptTiles | scripts/loop_tile_generation_with_commit.py:110-171 | the loop script writes exactly the in-range tiles that hold data, and each one is a valid XYZ address |
| Pyramid.LoopScriptUploadPath | scripts/loop_tile_generation_with_commit.py:170-171 | the upload path is `docs/page_files/maps/<property>/tiles/<z>/<x>/<y>.png` |
| Pyramid.CommitScriptWritesEveryTile | scripts/tile_generation_with_commit.py:94-131 | every visited tile, empty or not, is written and uploaded, one per visit, in order |
| Pyramid.WrittenPixel | scripts/tile_generation_with_commit.py:110-118 | without the skip, pixel k of the i-th tile written is visit i's sample k, coloured and masked |
| Pyramid.PhScriptTiles | scripts/tile_generation.py:57-96 | every visited tile is written, none uploaded; a pixel is transparent when its sample is no-data or at most 4, and otherwise has the colour of its sample normalised against data_min and 14 |
| Pyramid.PhScriptsAgree | scripts/tile_generation_with_batch_commit.py:14-92 | tile_generation.py and the batch script write the same tiles in the same order, each under its own directory (`main\html\tiles` and `main\html\agronomy_farms_soil_mapping\...\PH_auto\tiles`), and hide the same pixels; every other pixel is the RdBu colour in one and the viridis colour in the other of the same level normalised against data_min and 14 |
| Classification.OffsetCount | scripts/loop_tile_generation_with_commit.py:75 | `ceil(step/2) - ceil(-step/2) == step`, and for positive step the range starts at `-(step // 2)` |
| Classification.StatisticalEdges | scripts/loop_tile_generation_with_commit.py:75 | there are `step` edges for positive step, and none otherwise |
| Classification.EdgesSpacing | scripts/loop_tile_generation_with_commit.py:75 | consecutive edges differ by the standard deviation |
| Classification.EdgesIncreasing | scripts/loop_tile_generation_with_commit.py:75 | with a positive standard deviation the edges strictly increase |
| Classification.EdgesAroundMean | scripts/loop_tile_generation_with_commit.py:75 | the mean is the edge at index `step // 2`, and for odd step the edges are symmetric about it |
| Classification.CommitConfiguration | scripts/tile_generation_with_commit.py:52-63 | 8 strictly increasing edges, 7 distinct well-formed hex colours, so `len(colors) == len(bin_edges) - 1` |
| Legend.Linspace | scripts/loop_tile_generation_with_commit.py:191 | a negative count is an error, otherwise exactly `num` ticks |
| Legend.LinspaceShape | scripts/loop_tile_generation_with_commit.py:191 | the ticks start at `start`, end at `stop`, and are evenly spaced by `(stop - start) / (num - 1)` |
| Legend.LinspaceIncreasing | scripts/tile_generation.py:118 | over an increasing interval the ticks strictly increase |
| Legend.IntLabels | scripts/loop_tile_generation_with_commit.py:193 | one label per tick |
| Legend.IntLabelsRead | scripts/loop_tile_generation_with_commit.py:193 | each label reads back as its tick truncated toward zero; two labels are equal exactly when their ticks' integer parts are |
| Legend.LoopLegend | scripts/loop_tile_generation_with_commit.py:191-193 | the loop legend fails exactly when `step + 1` is negative, and otherwise has `step + 1` ticks, each with one label |
| Legend.LoopLegendShape | scripts/loop_tile_generation_with_commit.py:191-193 | ticks run evenly from data_min to data_max, and each label reads back as its tick's integer part |
| Legend.CappedLegend | scripts/tile_generation_with_batch_commit.py:106-108 | six ticks and six labels, the first tick data_min, the last tick 14 carrying the fixed last label |
| Legend.CappedLegendShape | scripts/tile_generation_with_batch_commit.py:106-108 | six evenly spaced ticks from data_min to 14; the first five labels read back as their ticks' integer parts and the last is the fixed text (">14") |
| Legend.CommitLegendMislabels | scripts/tile_generation_with_commit.py:144-153 | as written, the last tick sits at 14 and is labelled "335", which is not its integer part |
| Legend.CommitLegend | scripts/tile_generation_with_commit.py:144-153 | the corrected legend has six ticks from data_min to 335, the last labelled "335" |
| Legend.CommitLegendLabelsTicks | scripts/tile_generation_with_commit.py:144-153 | with ticks spanning data_min..335, every label, the last included, reads back as its tick's integer part |

## Left out

- Raster I/O (`rasterio.open`, masked reads, `from_bounds`, windowed bilinear resampling to 256 x 256) is the `Sampler` parameter. The model places no constraint on how many samples a read returns.
- Raster statistics (`np.mean`, `np.std`, `data.min()`, `data.max()`) are parameters.
- The matplotlib colour lookups (`ListedColormap`, `BoundaryNorm`, named colormaps, `* 255` cast to uint8) are uninterpreted functions to `Rgba`. This includes what a colormap does with NaN.
- PIL encoding and saving, and `os.makedirs`, are out of scope. A written tile is an output record holding its path and image.
- Uploads are recorded as their repository path only: `upload_to_github`, its GitHub API calls and catch-all exception handling, the final `git` push of the batch script, and token and `colormaps.json` reading are network and file I/O.
- Legend drawing (figure, colour bar, `plt.Normalize`, `savefig`) and the legend upload are out of scope. Only the tick positions and labels are modelled.
- Progress messages printed by the scripts are out of scope.
- The `for PROPERTY in properties` wrapper of the loop script is out of scope. One property's run is modelled.
- The `step` fallback to the property name (a string) is out of scope, because it is a configuration type error.
- The loop script builds its `BoundaryNorm` twice with the same arguments. It is modelled once, as the `classify` parameter.
- WebMercator.TileBoundsFromCorner: proved in exact arithmetic. In floating point, `minx + tile_size` and `WEBMERC_MIN + (x + 1) * tile_size` can differ in the last bit.
- TileRendering.Normalise: exact reals replace IEEE floats. The only NaN modelled is the one normalisation makes from 0 / 0. The -inf from a negative number divided by zero appears as its clipped value, 0.
- Samples and the no-data value are modelled as numbers, never NaN. With a float raster whose no-data value is NaN, `tile_array == src.nodata` is false everywhere, so the scripts skip no tile, mask no no-data pixel and pass the NaN samples to the colour lookup; the model's `Hidden` and `IsEmptyTile` compare by equality and would mask and skip those samples instead.
- Pyramid.TilePathInjective: local paths use `\` as `os.path.join` does on Windows, where the scripts' raw-string paths point. On POSIX the separator would be `/`. The lemma holds for either.
- Classification.StatisticalEdges: `step` is taken as an integer.

## Findings

| source | as written | input that shows it | evidently intended | confidence | as-written member | corrected member |
|---|---|---|---|---|---|---|
| scripts/tile_generation_with_commit.py:79-85 | `get_tile_range` truncates the scaled coordinates and does not clamp them | a raster whose right edge is `WEBMERC_MAX` gives x_max = 2^z, a column that does not exist; a box 2.5 tiles beyond the west edge gives x_min = -2 | indices clamped to [0, 2^z - 1], as the loop script's `get_tile_range` does | medium, not executed | WebMercator.UnclampedEdgeIndex | WebMercator.ClampedTileRangeOf |
| scripts/tile_generation_with_commit.py:144-153 | the colour bar runs from data_min to 335, but the ticks are `np.linspace(data_min, 14, 6)` and the last one is labelled "335" | any data_min, e.g. 4: ticks 4, 6, 8, 10, 12, 14, and the tick at 14 reads "335" | ticks `np.linspace(data_min, 335, 6)`, so that the last tick lies at 335 where its label says | medium, not executed | Legend.CommitLegendMislabels | Legend.CommitLegendLabelsTicks |

The script pipelines `CommitPipeline` and `PhPipeline` keep the unclamped
range, so that they match the scripts as written. `LoopPipeline` uses the
clamped range.
