# Land-cover classification and vegetation change: a Dafny model

The script classifies land cover in an area of interest for a fixed list of
(year, sensor) pairs, using Landsat 7/8/9 or Sentinel-2 imagery. It then reports,
per year, the area of each land-cover class and, for every pair of consecutive
years, where vegetation (class 3) was gained or lost. Most of its work happens
in platform operators. This model covers the logic the script decides itself:

- **Sensors** (`sensors.dfy`): the sensor tags and the band selection `loadImage`
  applies per sensor (source names, renamed targets). It also has the
  (NIR, red) pair `computeNDVI` picks per sensor, the mask `loadImage` applies
  per sensor, and the `yearsSensors` table.
  A tag outside a function's branches gives `None`, which mirrors the script's
  undefined result.
- **Masks** (`masks.dfy`): the Landsat `QA_PIXEL` test (bits 3 and 5 clear) and
  the Sentinel-2 `SCL` test (value not 3, 8, 9 or 10) as pixel predicates, and
  `updateMask` on a raster of optional pixels (`None` = masked). `bitwiseAnd`
  is written out on all naturals and proved to read single bits; only the
  `QA_PIXEL` value type is bounded by 2^16.
  The SCL test is proved against the Sentinel-2 Level-2A scene classification:
  it removes exactly cloud shadows, medium- and high-probability cloud, and
  thin cirrus.
- **Classes** (`classes.dfy`): the training labels 0..3 (built-up, bareland,
  water, vegetation).
- **Areas** (`areas.dfy`): sum-reductions of natural pixel areas over a selection.
- **Change** (`change.dfy`): gain and loss layers, the area each one covers,
  and the `computeGainLoss` loop over consecutive entries of `classifiedList`.
- **Statistics** (`statistics.dfy`): the per-class records of `classifyYear` and
  the flattened statistics table.
- **Pipeline** (`pipeline.dfy`): a `Session` class whose fields are the
  module-level lists `classifiedList` and `statisticsList`. `ClassifyYear`
  appends to them and `RunAll` is the `forEach` over the table. `RunScript` is
  the whole run.

Rasters are sequences of pixels on one grid. A pixel is `None` where it is
masked. Binary raster operations (`eq`, `and`) mask a pixel that is masked in
either input. The random-forest classifier is external, so its output (one
classified raster per year) is an input to the model. Pixel areas are an input
too, as natural numbers.

Two behaviours of the code are worth stating plainly:

- Band renaming does not give every sensor the same schema: LE07 keeps `B1`–`B5`
  and `B7`, LC08 and LC09 keep `B1`–`B7`, and S2 keeps `B2`, `B3`, `B4`, `B8`,
  `B11`, `B12` under their own names (`Sensors.SchemasDifferAcrossSensors`).
  Each year trains its own classifier on its own band names.
- An unknown sensor tag leaves `collection` undefined (LULC_GEE_Code.js:47, 71);
  `collection.median()` then throws and the run stops. The model returns `None`
  from `LoadBands`, `ClassifyYear` appends nothing, and `RunAll` stops at that entry.

## Model

| member | source | states |
|---|---|---|
| `Sensors.ParseTag` | LULC_GEE_Code.js:20-28 | a tag is read as a sensor only if it is exactly that sensor's tag; any other string is no sensor |
| `Sensors.NdviOf` | LULC_GEE_Code.js:20-28 | `computeNDVI`'s (NIR, red) pair per sensor: B4/B3 for LT05 and LE07, B5/B4 for LC08 and LC09, B8/B4 for S2; the two bands always differ |
| `Sensors.Schema` | LULC_GEE_Code.js:49-70 | `loadImage` selects bands for every sensor except LT05; Sentinel-2 bands keep their names |
| `Sensors.SchemaConsistent` | LULC_GEE_Code.js:53-69 | every selection has one target per source band, no repeated name on either side, and contains both bands of the sensor's NDVI pair; Landsat targets are the sources without the `SR_` prefix |
| `Sensors.MaskRuleConsistent` | LULC_GEE_Code.js:49-69 | every sensor `loadImage` handles gets a mask: LE07, LC08 and LC09 the `QA_PIXEL` mask, S2 the `SCL` mask, LT05 none; the band the mask reads is not among the selected or renamed bands, so the mask runs before the selection |
| `Sensors.UniqueLandsat` | LULC_GEE_Code.js:53-63 | the Landsat band names, with and without `SR_`, are pairwise distinct |
| `Sensors.LoadBandsDomain` | LULC_GEE_Code.js:44-71 | `loadImage` has a selection exactly for LE07, LC08, LC09 and S2 and none for any other tag |
| `Sensors.NdviBandsDomain` | LULC_GEE_Code.js:20-28 | `computeNDVI` has a pair exactly for LT05, LE07, LC08, LC09 and S2 and none for any other tag |
| `Sensors.NdviCoversLoaded` | LULC_GEE_Code.js:109 | for every tag `loadImage` loads, `computeNDVI` has a pair and both its bands are among the loaded band names |
| `Sensors.LT05OnlyInNdvi` | LULC_GEE_Code.js:21 | LT05 has an NDVI pair but no band selection; the tags `loadImage` handles are a strict subset of those `computeNDVI` handles |
| `Sensors.SchemasDifferAcrossSensors` | LULC_GEE_Code.js:53-69 | LE07 and LC08, and LC08 and S2, get different band names; LC08 and LC09 get the same |
| `Sensors.YearsSensorsConsistent` | LULC_GEE_Code.js:11-17 | every sensor in `yearsSensors` is handled by both `loadImage` and `computeNDVI`, and the years strictly increase |
| `Masks.BitAndPow2` | LULC_GEE_Code.js:33 | `bitwiseAnd` with `1 << k` is `1 << k` times bit k of the value |
| `Masks.KeepLandsatBits` | LULC_GEE_Code.js:33 | the Landsat mask keeps a pixel iff bits 3 and 5 of `QA_PIXEL` are both zero |
| `Masks.KeepSentinelClasses` | LULC_GEE_Code.js:39 | the Sentinel mask drops a pixel iff its SCL value is the code of cloud shadows, medium- or high-probability cloud or thin cirrus; any other class, and any value outside the classification, is kept |
| `Masks.UpdateMask` | LULC_GEE_Code.js:34 | a pixel stays unmasked iff it was unmasked and the mask keeps it, and kept pixels are unchanged |
| `Masks.MaskLandsatSR` | LULC_GEE_Code.js:31-35 | `maskLandsatSR` keeps exactly the unmasked pixels whose `QA_PIXEL` bits 3 and 5 are clear, unchanged |
| `Masks.MaskSentinel` | LULC_GEE_Code.js:37-41 | `maskSentinel` keeps exactly the unmasked pixels whose scene class is not cloud, cirrus or cloud shadow, unchanged |
| `Classes.ClassValuesDense` | LULC_GEE_Code.js:2-5 | the four training labels are distinct and are exactly the values 0..3 |
| `Change.GainLossAtMeaning` | LULC_GEE_Code.js:153-154 | a pixel is masked in the gain and loss layers iff it is masked in either year; gain iff it moves into class 3, loss iff it moves out of class 3 |
| `Change.GainLossExclusive` | LULC_GEE_Code.js:153-154 | no pixel is flagged both gain and loss |
| `Change.NoChangeNoFlags` | LULC_GEE_Code.js:153-154 | two identical classified rasters flag no gain and no loss at any pixel |
| `Change.SwapYears` | LULC_GEE_Code.js:153-154 | gain from a to b is loss from b to a, pixel by pixel, and vice versa |
| `Change.ComputeGainLoss` | LULC_GEE_Code.js:149-195 | the loop produces the change record of each pair (i, i+1) in list order: n-1 records for n years, none for fewer than two |
| `Change.NoChangeNoArea` | LULC_GEE_Code.js:156-168 | identical years have zero gain area and zero loss area |
| `Change.SwapYearsArea` | LULC_GEE_Code.js:156-168 | swapping the years swaps gain area and loss area |
| `Change.GainLossAreaBound` | LULC_GEE_Code.js:156-168 | gain area plus loss area is at most the region's area |
| `Change.NetVegetationChange` | LULC_GEE_Code.js:153-168 | over pixels classified in both years, vegetation area before plus gain area equals vegetation area after plus loss area |
| `Change.ChangesMoveForward` | LULC_GEE_Code.js:170-171 | with chronologically ordered years, each reported pair goes from an earlier to a later year |
| `Statistics.ClassStats` | LULC_GEE_Code.js:121-142 | one record per class value 0..3 in ascending order, each with its year, the area of the pixels of that class, and the region's area, which is never smaller |
| `Statistics.ClassPrefixArea` | LULC_GEE_Code.js:121-129 | the first k class records together hold the area of the pixels classified below k |
| `Statistics.StatsPartitionArea` | LULC_GEE_Code.js:121-142 | the class areas sum to the area of the pixels classified in 0..3, which is at most the region's area, and equal to it when every pixel is classified in 0..3 |
| `Statistics.FlattenRows` | LULC_GEE_Code.js:206 | flattening the per-year collections puts class c of year k at row 4k + c, with 4 rows per year |
| `Pipeline.FirstUnhandled` | LULC_GEE_Code.js:198-200 | the position where the run over the table stops: every earlier entry's sensor is loadable, and the entry there, if any, is not |
| `Pipeline.Session.constructor` | LULC_GEE_Code.js:75-76 | both lists start empty |
| `Pipeline.Session.ClassifyYear` | LULC_GEE_Code.js:78-146 | for a loadable sensor, appends the year's classified raster and statistics and yields the sensor's NDVI pair; otherwise fails and leaves both lists unchanged; the lists stay in step |
| `Pipeline.Session.RunAll` | LULC_GEE_Code.js:198-200 | classifies the entries in order up to the first unloadable sensor, appending exactly those years |
| `Pipeline.RunScript` | LULC_GEE_Code.js:198-214 | the run aborts iff some sensor is unloadable; otherwise it yields the change record of every consecutive pair of years and a statistics table whose row 4k + c is class c of year k |
| `Pipeline.YearsSensorsRunFully` | LULC_GEE_Code.js:11-17 | the script's own table never aborts the run |

## Left out

- Collection querying, the bounds and date filters, the `CLOUDY_PIXEL_PERCENTAGE` filter, the median composite and `clip`. These are platform operators whose semantics are not in the script. The model states which mask each sensor gets and that the band selection drops the mask's input band (so the mask has to run first, as it does), and it models each mask on a raster of its sensor family's observations; it does not apply the mask and the selection in sequence to a collection of multi-band images, and it does not model the raw bands of each collection (that `QA_PIXEL` or `SCL` is present before the selection is the platform's).
- Training-set merging, `sampleRegions`, random-forest training and `classify`. The classifier is external, so the classified raster of each year is an input.
- The `normalizedDifference` arithmetic, the `gt(0.3)` threshold, geodesic `pixelArea` with the km² division, and the percent division. These are floating-point; areas are natural numbers, and a record keeps the class area and the region area that the percent divides.
- `Export.image/table.toDrive`, `Map.addLayer`, `print` and `Map.centerObject`. These are I/O and display. So the change records and the table are returned, not written, and exports submitted before an aborted run are not modelled.
- The platform's deferred, server-side evaluation, and the feature collections the script uses without defining (`AOI`, `Built_up`, `Bareland`, `Water`, `Vegetation`).
- Area units: the class areas are in km² (`pixelArea().divide(1e6)`, LULC_GEE_Code.js:119) while the gain and loss areas are in m² (`pixelArea()` undivided, LULC_GEE_Code.js:156, 163), so in the script the two outputs differ by a factor of 10^6; the model feeds one natural-valued area sequence to both.
- Pipeline.RunScript: assumes every classified raster lies on the same pixel grid as the area raster, as the script's reductions all run over `AOI.geometry()` at `scale: 30` (LULC_GEE_Code.js:124-128, 135-139, 156-167).
